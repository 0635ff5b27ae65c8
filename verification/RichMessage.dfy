/** Alarm message templates: `${cond.$x}` references are cut out when the
    template is parsed and their values inserted when an alarm is raised. */
module RichMessage {
  import opened Options
  import opened Texts
  import opened NameIndex

  /** $s, $t, $m and $g1 .. $g9. */
  datatype What = SourceName | TargetName | WholeMessage | Group(n: int)

  datatype Symbol = Symbol(cond: nat, what: What)

  /** The text between the references, and the references: lits[0], syms[0],
      lits[1], ..., lits[|syms|]. */
  datatype Template = Template(lits: seq<string>, syms: seq<Symbol>)

  // ------------------------------------------------------------------ finding

  predicate OpenAt(s: string, i: nat)
  {
    i + 1 < |s| && s[i] == '$' && s[i + 1] == '{'
  }

  /** s.find("${", i); |s| if there is none. */
  function FindOpen(s: string, i: nat): (r: nat)
    requires i <= |s|
    ensures i <= r <= |s| && (r < |s| ==> OpenAt(s, r))
    decreases |s| - i
  {
    if i == |s| || OpenAt(s, i) then i else FindOpen(s, i + 1)
  }

  /** s.find(c, i); |s| if there is none. */
  function FindChar(s: string, c: char, i: nat): (r: nat)
    requires i <= |s|
    ensures i <= r <= |s| && (r < |s| ==> s[r] == c)
    decreases |s| - i
  {
    if i == |s| || s[i] == c then i else FindChar(s, c, i + 1)
  }

  /** They find the first occurrence. */
  lemma {:induction false} FindOpenFirst(s: string, i: nat, r: nat)
    requires i <= r <= |s| && (r < |s| ==> OpenAt(s, r)) && forall j | i <= j < r :: !OpenAt(s, j)
    ensures FindOpen(s, i) == r
    decreases r - i
  {
    if i < r { FindOpenFirst(s, i + 1, r); }
  }

  lemma {:induction false} FindCharFirst(s: string, c: char, i: nat, r: nat)
    requires i <= r <= |s| && (r < |s| ==> s[r] == c) && forall j | i <= j < r :: s[j] != c
    ensures FindChar(s, c, i) == r
    decreases r - i
  {
    if i < r { FindCharFirst(s, c, i + 1, r); }
  }

  // ------------------------------------------------------------------ parsing

  function WhatOf(s: string): Option<What>
  {
    if s == "s" then Some(SourceName)
    else if s == "t" then Some(TargetName)
    else if s == "m" then Some(WholeMessage)
    else if |s| == 2 && s[0] == 'g' && '1' <= s[1] <= '9' then Some(Group(s[1] as int - '0' as int))
    else None
  }

  /** parse_msg_ref. None covers both the false result and the exception for an
      unknown condition: either way the rule is refused. */
  function ParseRef(s: string, idx: map<string, nat>): Option<Symbol>
  {
    var dot := FindChar(s, '.', 0);
    if dot == |s| || s[..dot] !in idx || dot + 1 == |s| || s[dot + 1] != '$' then None
    else
      var what := WhatOf(s[dot + 2..]);
      if what.None? then None else Some(Symbol(idx[s[..dot]], what.value))
  }

  type RefParser = string -> Option<Symbol>

  function Parser(idx: map<string, nat>): RefParser
  {
    (s: string) => ParseRef(s, idx)
  }

  function Prepend(done: Template, rest: Option<Template>): Option<Template>
  {
    if rest.None? then None else Some(Template(done.lits + rest.value.lits, done.syms + rest.value.syms))
  }

  function Cons(lit: string, sym: Symbol, rest: Option<Template>): Option<Template>
  {
    if rest.None? then None else Some(Template([lit] + rest.value.lits, [sym] + rest.value.syms))
  }

  lemma PrependCons(done: Template, lit: string, sym: Symbol, rest: Option<Template>)
    ensures Prepend(done, Cons(lit, sym, rest)) == Prepend(Template(done.lits + [lit], done.syms + [sym]), rest)
  {
    if rest.Some? {
      assert done.lits + ([lit] + rest.value.lits) == done.lits + [lit] + rest.value.lits;
      assert done.syms + ([sym] + rest.value.syms) == done.syms + [sym] + rest.value.syms;
    }
  }

  /** The template from position `i` on, cut left to right. */
  function Cut(s: string, i: nat, parse: RefParser): (r: Option<Template>)
    requires i <= |s|
    ensures r.Some? ==> |r.value.lits| == |r.value.syms| + 1
    decreases |s| - i
  {
    var open := FindOpen(s, i);
    if open == |s| then Some(Template([s[i..]], []))
    else
      var close := FindChar(s, '}', open);
      if close == |s| then None
      else
        var ref := parse(s[open + 2..close]);
        if ref.None? then None else Cons(s[i..open], ref.value, Cut(s, close + 1, parse))
  }

  /** The length of the text up to and including the i-th literal part. */
  function Before(lits: seq<string>, i: nat): nat
    requires i < |lits|
  {
    |Concat(lits[..i + 1])|
  }

  /** Where the i-th reference stood in the text without references. */
  function Positions(lits: seq<string>): (r: seq<nat>)
    requires lits != []
    ensures |r| == |lits| - 1
  {
    seq(|lits| - 1, i requires 0 <= i < |lits| - 1 => Before(lits, i))
  }

  /** Values put into a template, left to right. */
  function Interpolate(lits: seq<string>, values: seq<string>): string
    requires |lits| == |values| + 1
  {
    lits[0] + if values == [] then "" else values[0] + Interpolate(lits[1..], values[1..])
  }

  lemma CutAt(s: string, i: nat, open: nat, close: nat, parse: RefParser, sym: Symbol)
    requires i <= |s| && open == FindOpen(s, i) < |s| && close == FindChar(s, '}', open) < |s|
    requires parse(s[open + 2..close]) == Some(sym)
    ensures Cut(s, i, parse) == Cons(s[i..open], sym, Cut(s, close + 1, parse))
  {
  }

  lemma CutSome(s: string, i: nat, open: nat, close: nat, parse: RefParser)
    requires i <= |s| && open == FindOpen(s, i) < |s| && close == FindChar(s, '}', open) && Cut(s, i, parse).Some?
    ensures close < |s| && parse(s[open + 2..close]).Some? && Cut(s, close + 1, parse).Some?
    ensures Cut(s, i, parse) == Cons(s[i..open], parse(s[open + 2..close]).value, Cut(s, close + 1, parse))
  {
  }

  lemma CutBad(s: string, i: nat, open: nat, close: nat, parse: RefParser)
    requires i <= |s| && open == FindOpen(s, i) < |s| && close == FindChar(s, '}', open)
    requires close == |s| || parse(s[open + 2..close]).None?
    ensures Cut(s, i, parse) == None
  {
  }

  /** Of the whole template `all`, the part up to `from` is cut into `done`. */
  ghost predicate Cutting(all: Option<Template>, s: string, parse: RefParser, from: nat, done: Template)
    requires from <= |s|
  {
    |done.lits| == |done.syms| && all == Prepend(done, Cut(s, from, parse))
  }

  lemma CutStart(s: string, parse: RefParser)
    ensures Cutting(Cut(s, 0, parse), s, parse, 0, Template([], []))
  {
    var t := Cut(s, 0, parse);
    if t.Some? { assert [] + t.value.lits == t.value.lits && [] + t.value.syms == t.value.syms; }
  }

  lemma CutStep(all: Option<Template>, s: string, parse: RefParser, from: nat, open: nat, close: nat, done: Template,
                sym: Symbol)
    requires from <= |s| && Cutting(all, s, parse, from, done)
    requires open == FindOpen(s, from) < |s| && close == FindChar(s, '}', open) < |s|
    requires parse(s[open + 2..close]) == Some(sym)
    ensures Cutting(all, s, parse, close + 1, Template(done.lits + [s[from..open]], done.syms + [sym]))
  {
    CutAt(s, from, open, close, parse, sym);
    PrependCons(done, s[from..open], sym, Cut(s, close + 1, parse));
  }

  lemma CutEnd(all: Option<Template>, s: string, parse: RefParser, from: nat, done: Template)
    requires from <= |s| && Cutting(all, s, parse, from, done) && FindOpen(s, from) == |s|
    ensures all == Some(Template(done.lits + [s[from..]], done.syms))
  {
    assert Cut(s, from, parse) == Some(Template([s[from..]], []));
    assert done.syms + [] == done.syms;
  }

  /** The text and the positions that go with the literal parts so far. */
  ghost predicate TextOk(lits: seq<string>, stripped: string, positions: seq<nat>)
  {
    && |positions| == |lits| && stripped == Concat(lits)
    && forall i | 0 <= i < |lits| :: positions[i] == Before(lits, i)
  }

  lemma BeforeSnoc(lits: seq<string>, lit: string, i: nat)
    requires i <= |lits|
    ensures Before(lits + [lit], i) == if i < |lits| then Before(lits, i) else |Concat(lits + [lit])|
  {
    if i < |lits| {
      assert (lits + [lit])[..i + 1] == lits[..i + 1];
    } else {
      assert (lits + [lit])[..i + 1] == lits + [lit];
    }
  }

  lemma ConcatSnoc(lits: seq<string>, lit: string)
    ensures Concat(lits + [lit]) == Concat(lits) + lit
  {
    ConcatAppend(lits, [lit]);
    assert Concat([lit]) == lit;
  }

  lemma TextStep(lits: seq<string>, stripped: string, positions: seq<nat>, lit: string)
    requires TextOk(lits, stripped, positions)
    ensures TextOk(lits + [lit], stripped + lit, positions + [|stripped| + |lit|])
  {
    ConcatSnoc(lits, lit);
    forall i | 0 <= i <= |lits|
      ensures Before(lits + [lit], i) == if i < |lits| then Before(lits, i) else |stripped| + |lit|
    {
      BeforeSnoc(lits, lit, i);
    }
  }

  lemma TextEnd(lits: seq<string>, stripped: string, positions: seq<nat>, lit: string)
    requires TextOk(lits, stripped, positions)
    ensures Concat(lits + [lit]) == stripped + lit && Positions(lits + [lit]) == positions
  {
    ConcatSnoc(lits, lit);
    forall i | 0 <= i < |lits| ensures Before(lits + [lit], i) == Before(lits, i) {
      BeforeSnoc(lits, lit, i);
    }
  }

  /** The parsed form of a template. */
  ghost predicate Parsed(t: Template, stripped: string, insertPos: seq<nat>, symbols: seq<Symbol>)
  {
    && |t.lits| == |t.syms| + 1
    && stripped == Concat(t.lits) && insertPos == Positions(t.lits) && symbols == t.syms
  }

  method ParseMsg(s: string, parse: RefParser)
    returns (ok: bool, stripped: string, insertPos: seq<nat>, symbols: seq<Symbol>)
    ensures ok == Cut(s, 0, parse).Some?
    ensures ok ==> Parsed(Cut(s, 0, parse).value, stripped, insertPos, symbols)
  {
    stripped, insertPos, symbols := "", [], [];
    var from, pos, ins := 0, FindOpen(s, 0), 0;
    ghost var all, lits: seq<string> := Cut(s, 0, parse), [];
    CutStart(s, parse);
    while pos != |s|
      invariant from <= |s| && pos == FindOpen(s, from) && ins == |stripped|
      invariant Cutting(all, s, parse, from, Template(lits, symbols)) && TextOk(lits, stripped, insertPos)
      decreases |s| - from
    {
      ins := ins + (pos - from);
      TextStep(lits, stripped, insertPos, s[from..pos]);
      insertPos := insertPos + [ins];
      stripped := stripped + s[from..pos];
      var close := FindChar(s, '}', pos);
      if close == |s| {
        CutBad(s, from, pos, close, parse);
        return false, stripped, insertPos, symbols;
      }
      var ref := parse(s[pos + 2..close]);
      if ref.None? {
        CutBad(s, from, pos, close, parse);
        return false, stripped, insertPos, symbols;
      }
      CutStep(all, s, parse, from, pos, close, Template(lits, symbols), ref.value);
      symbols := symbols + [ref.value];
      lits := lits + [s[from..pos]];
      from := close + 1;
      pos := FindOpen(s, from);
    }
    TextEnd(lits, stripped, insertPos, s[from..]);
    CutEnd(all, s, parse, from, Template(lits, symbols));
    if from < |s| {
      stripped := stripped + s[from..];
    }
    return true, stripped, insertPos, symbols;
  }

  class RichMsg {
    var plain: string
    var stripped: string
    var insertPos: seq<nat>
    var symbols: seq<Symbol>

    ghost predicate Holds(t: Template)
      reads this
    {
      Parsed(t, stripped, insertPos, symbols)
    }

    constructor ()
      ensures plain == "" && Holds(Template([""], []))
    {
      plain, stripped, insertPos, symbols := "", "", [], [];
    }

    /** false is the exception for a template that cannot be parsed. */
    method Parse(s: string, idx: map<string, nat>) returns (ok: bool)
      modifies this
      ensures plain == s && ok == Cut(s, 0, Parser(idx)).Some?
      ensures ok ==> Holds(Cut(s, 0, Parser(idx)).value)
    {
      plain := s;
      ok, stripped, insertPos, symbols := ParseMsg(s, Parser(idx));
    }

    /** message: the values inserted at the stored positions, last one first. None
        is the exception of a reference that has no value. */
    method Message(value: Symbol -> Option<string>, ghost t: Template) returns (result: Option<string>)
      requires Holds(t)
      ensures result == if AllGiven(t.syms, value) then Some(Interpolate(t.lits, Values(t.syms, value))) else None
      ensures forall vs | ValuesAre(vs, t.syms, value) ::
                |vs| + 1 == |t.lits| && result == Some(Interpolate(t.lits, vs))
    {
      ghost var values := Values(t.syms, value);
      var text := stripped;
      assert t.lits[..|symbols| + 1] == t.lits;
      var i: int := |symbols| - 1;
      while i >= 0
        invariant -1 <= i < |symbols|
        invariant forall k | i < k < |symbols| :: value(symbols[k]).Some?
        invariant text == Concat(t.lits[..i + 2]) + Tail(t.lits, values, i + 1)
      {
        var v := value(symbols[i]);
        if v.None? { return None; }
        assert t.lits[..i + 2] == t.lits[..i + 1] + [t.lits[i + 1]];
        ConcatAppend(t.lits[..i + 1], [t.lits[i + 1]]);
        assert Concat([t.lits[i + 1]]) == t.lits[i + 1];
        text := text[..insertPos[i]] + v.value + text[insertPos[i]..];
        i := i - 1;
      }
      assert t.lits[..1] == [t.lits[0]] && Concat([t.lits[0]]) == t.lits[0];
      TailInterpolate(t.lits, values, 0);
      assert t.lits[0..] == t.lits && values[0..] == values;
      ValuesUnique(t.syms, value);
      return Some(text);
    }
  }

  /** `vs` are the values of the references, in order. */
  predicate ValuesAre(vs: seq<string>, syms: seq<Symbol>, value: Symbol -> Option<string>)
  {
    |vs| == |syms| && forall i | 0 <= i < |syms| :: value(syms[i]) == Some(vs[i])
  }

  predicate AllGiven(syms: seq<Symbol>, value: Symbol -> Option<string>)
  {
    forall i | 0 <= i < |syms| :: value(syms[i]).Some?
  }

  function Values(syms: seq<Symbol>, value: Symbol -> Option<string>): (r: seq<string>)
    ensures |r| == |syms|
  {
    seq(|syms|, i requires 0 <= i < |syms| => if value(syms[i]).Some? then value(syms[i]).value else "")
  }

  lemma ValuesUnique(syms: seq<Symbol>, value: Symbol -> Option<string>)
    ensures forall vs | ValuesAre(vs, syms, value) :: vs == Values(syms, value)
  {
  }

  /** Everything after the i-th literal text. */
  function Tail(lits: seq<string>, values: seq<string>, i: nat): string
    requires |lits| == |values| + 1 && i <= |values|
    decreases |values| - i
  {
    if i == |values| then "" else values[i] + lits[i + 1] + Tail(lits, values, i + 1)
  }

  lemma {:induction false} TailInterpolate(lits: seq<string>, values: seq<string>, i: nat)
    requires |lits| == |values| + 1 && i <= |values|
    ensures lits[i] + Tail(lits, values, i) == Interpolate(lits[i..], values[i..])
    decreases |values| - i
  {
    if i < |values| {
      TailInterpolate(lits, values, i + 1);
      assert lits[i..][1..] == lits[i + 1..] && values[i..][1..] == values[i + 1..];
    }
  }

  // -------------------------------------------------------------- round trips

  function WhatText(w: What): string
  {
    match w
    case SourceName => "s"
    case TargetName => "t"
    case WholeMessage => "m"
    case Group(n) => "g" + [if 1 <= n <= 9 then ('0' as int + n) as char else '1']
  }

  function RefBody(names: seq<string>, sym: Symbol): string
    requires sym.cond < |names|
  {
    names[sym.cond] + ".$" + WhatText(sym.what)
  }

  /** A reference as it is written in a template. */
  function RefText(names: seq<string>, sym: Symbol): string
    requires sym.cond < |names|
  {
    "${" + RefBody(names, sym) + "}"
  }

  predicate SymbolOk(names: seq<string>, sym: Symbol)
  {
    sym.cond < |names| && (sym.what.Group? ==> 1 <= sym.what.n <= 9)
  }

  lemma WhatRoundTrip(s: string)
    ensures WhatOf(s).Some? ==>
              WhatText(WhatOf(s).value) == s && (WhatOf(s).value.Group? ==> 1 <= WhatOf(s).value.n <= 9)
  {
    if |s| == 2 { assert s == [s[0], s[1]]; }
  }

  lemma RefRoundTrip(s: string, names: seq<string>, idx: map<string, nat>)
    requires Indexes(names, idx) && ParseRef(s, idx).Some?
    ensures SymbolOk(names, ParseRef(s, idx).value)
    ensures RefBody(names, ParseRef(s, idx).value) == s
  {
    var dot := FindChar(s, '.', 0);
    WhatRoundTrip(s[dot + 2..]);
    SplitDot(s, dot);
  }

  lemma SplitDot(s: string, dot: nat)
    requires dot + 1 < |s| && s[dot] == '.' && s[dot + 1] == '$'
    ensures s == s[..dot] + ".$" + s[dot + 2..]
  {
  }

  /** The references of a condition c. */
  lemma RefExamples(idx: map<string, nat>)
    requires "c" in idx
    ensures ParseRef("c.$s", idx) == Some(Symbol(idx["c"], SourceName))
    ensures ParseRef("c.$t", idx) == Some(Symbol(idx["c"], TargetName))
    ensures ParseRef("c.$m", idx) == Some(Symbol(idx["c"], WholeMessage))
    ensures ParseRef("c.$g7", idx) == Some(Symbol(idx["c"], Group(7)))
  {
    RefExample("s", idx);
    RefExample("t", idx);
    RefExample("m", idx);
    RefExample("g7", idx);
    assert "c.$" + "s" == "c.$s" && "c.$" + "t" == "c.$t" && "c.$" + "m" == "c.$m" && "c.$" + "g7" == "c.$g7";
  }

  lemma RefExample(what: string, idx: map<string, nat>)
    requires "c" in idx && WhatOf(what).Some?
    ensures ParseRef("c.$" + what, idx) == Some(Symbol(idx["c"], WhatOf(what).value))
  {
    var s := "c.$" + what;
    FindCharFirst(s, '.', 0, 1);
    assert s[..1] == "c" && s[3..] == what;
  }

  predicate SymbolsOk(names: seq<string>, syms: seq<Symbol>)
  {
    forall i | 0 <= i < |syms| :: SymbolOk(names, syms[i])
  }

  function RefTexts(names: seq<string>, syms: seq<Symbol>): (r: seq<string>)
    requires SymbolsOk(names, syms)
    ensures |r| == |syms|
  {
    seq(|syms|, i requires 0 <= i < |syms| => assert SymbolOk(names, syms[i]); RefText(names, syms[i]))
  }

  /** What the parser accepts is the text of the reference it yields. */
  ghost predicate Faithful(parse: RefParser, names: seq<string>)
  {
    forall s :: FaithfulAt(parse, names, s)
  }

  predicate FaithfulAt(parse: RefParser, names: seq<string>, s: string)
  {
    parse(s).Some? ==> SymbolOk(names, parse(s).value) && RefBody(names, parse(s).value) == s
  }

  lemma InterpolateCons(lit: string, value: string, lits: seq<string>, values: seq<string>)
    requires |lits| == |values| + 1
    ensures Interpolate([lit] + lits, [value] + values) == lit + value + Interpolate(lits, values)
  {
    assert ([lit] + lits)[1..] == lits && ([value] + values)[1..] == values;
  }

  lemma RefTextsCons(names: seq<string>, sym: Symbol, syms: seq<Symbol>)
    requires SymbolOk(names, sym) && SymbolsOk(names, syms)
    ensures SymbolsOk(names, [sym] + syms)
    ensures RefTexts(names, [sym] + syms) == [RefText(names, sym)] + RefTexts(names, syms)
  {
  }

  lemma InterpolateStep(t: Template, lit: string, sym: Symbol, rest: Template, names: seq<string>, tail: string)
    requires SymbolOk(names, sym) && SymbolsOk(names, rest.syms) && |rest.lits| == |rest.syms| + 1
    requires Interpolate(rest.lits, RefTexts(names, rest.syms)) == tail
    requires t.lits == [lit] + rest.lits && t.syms == [sym] + rest.syms
    ensures SymbolsOk(names, t.syms) && |t.lits| == |t.syms| + 1
    ensures Interpolate(t.lits, RefTexts(names, t.syms)) == lit + RefText(names, sym) + tail
  {
    RefTextsCons(names, sym, rest.syms);
    InterpolateCons(lit, RefText(names, sym), rest.lits, RefTexts(names, rest.syms));
  }

  lemma Pieces(s: string, i: nat, open: nat, close: nat)
    requires i <= open && open + 2 <= close < |s| && OpenAt(s, open) && s[close] == '}'
    ensures s[i..] == s[i..open] + ("${" + s[open + 2..close] + "}") + s[close + 1..]
  {
    assert s[open..open + 2] == "${" && s[close..close + 1] == "}";
  }

  /** The template with every reference's own text put in is the text from `i` on. */
  ghost predicate WritesBack(t: Template, names: seq<string>, text: string)
  {
    |t.lits| == |t.syms| + 1 && SymbolsOk(names, t.syms) && Interpolate(t.lits, RefTexts(names, t.syms)) == text
  }

  lemma WritesBackStep(s: string, i: nat, open: nat, close: nat, sym: Symbol, rest: Option<Template>,
                       names: seq<string>)
    requires i <= open && open + 2 <= close < |s| && OpenAt(s, open) && s[close] == '}'
    requires SymbolOk(names, sym) && RefBody(names, sym) == s[open + 2..close]
    requires rest.Some? && WritesBack(rest.value, names, s[close + 1..])
    ensures WritesBack(Cons(s[i..open], sym, rest).value, names, s[i..])
  {
    InterpolateStep(Cons(s[i..open], sym, rest).value, s[i..open], sym, rest.value, names, s[close + 1..]);
    Pieces(s, i, open, close);
  }

  lemma LastWritesBack(lit: string, names: seq<string>)
    ensures WritesBack(Template([lit], []), names, lit)
  {
  }

  lemma {:induction false} CutRoundTrip(s: string, i: nat, names: seq<string>, parse: RefParser)
    requires i <= |s| && Faithful(parse, names) && Cut(s, i, parse).Some?
    ensures WritesBack(Cut(s, i, parse).value, names, s[i..])
    decreases |s| - i
  {
    var open := FindOpen(s, i);
    if open < |s| {
      var close := FindChar(s, '}', open);
      CutSome(s, i, open, close, parse);
      CutRoundTrip(s, close + 1, names, parse);
      RoundTripStep(s, i, open, close, names, parse, Cut(s, close + 1, parse));
    } else {
      LastWritesBack(s[i..], names);
    }
  }

  lemma RoundTripStep(s: string, i: nat, open: nat, close: nat, names: seq<string>, parse: RefParser,
                      rest: Option<Template>)
    requires i <= open && open + 2 <= close < |s| && OpenAt(s, open) && s[close] == '}'
    requires Faithful(parse, names) && parse(s[open + 2..close]).Some?
    requires rest.Some? && WritesBack(rest.value, names, s[close + 1..])
    ensures WritesBack(Cons(s[i..open], parse(s[open + 2..close]).value, rest).value, names, s[i..])
  {
    assert FaithfulAt(parse, names, s[open + 2..close]);
    WritesBackStep(s, i, open, close, parse(s[open + 2..close]).value, rest, names);
  }

  /** For every accepted template, putting every reference's own text back gives
      the template. */
  lemma TemplateRoundTrip(s: string, names: seq<string>, idx: map<string, nat>)
    requires Indexes(names, idx) && Cut(s, 0, Parser(idx)).Some?
    ensures WritesBack(Cut(s, 0, Parser(idx)).value, names, s)
  {
    forall x ensures FaithfulAt(Parser(idx), names, x) {
      if Parser(idx)(x).Some? { RefRoundTrip(x, names, idx); }
    }
    CutRoundTrip(s, 0, names, Parser(idx));
    assert s[0..] == s;
  }

  /** Text that cannot be taken for a reference. */
  predicate NoOpen(s: string)
  {
    forall i: nat | i < |s| :: !OpenAt(s, i)
  }

  predicate NameOk(n: string)
  {
    forall i | 0 <= i < |n| :: n[i] != '.' && n[i] != '}'
  }

  lemma WhatText1(w: What)
    requires w.Group? ==> 1 <= w.n <= 9
    ensures WhatOf(WhatText(w)) == Some(w)
    ensures forall i | 0 <= i < |WhatText(w)| :: WhatText(w)[i] != '}'
  {
  }

  lemma ParseRefText(names: seq<string>, idx: map<string, nat>, sym: Symbol)
    requires Indexes(names, idx) && SymbolOk(names, sym) && NameOk(names[sym.cond])
    ensures ParseRef(RefBody(names, sym), idx) == Some(sym)
  {
    var n, w := names[sym.cond], WhatText(sym.what);
    var s := RefBody(names, sym);
    WhatText1(sym.what);
    assert s[|n|] == '.' && forall i | 0 <= i < |n| :: s[i] == n[i] && s[i] != '.';
    FindCharFirst(s, '.', 0, |n|);
    assert s[..|n|] == n && s[|n| + 2..] == w;
  }

  predicate PartsOk(t: Template, names: seq<string>)
  {
    && |t.lits| == |t.syms| + 1 && SymbolsOk(names, t.syms)
    && (forall i | 0 <= i < |t.lits| :: NoOpen(t.lits[i]))
    && (forall i | 0 <= i < |names| :: NameOk(names[i]))
  }

  /** The parser reads back the text of every reference. */
  ghost predicate Reads(parse: RefParser, names: seq<string>)
  {
    forall sym | SymbolOk(names, sym) && NameOk(names[sym.cond]) :: parse(RefBody(names, sym)) == Some(sym)
  }

  lemma ParserReads(names: seq<string>, idx: map<string, nat>)
    requires Indexes(names, idx)
    ensures Reads(Parser(idx), names)
  {
    forall sym | SymbolOk(names, sym) && NameOk(names[sym.cond]) ensures Parser(idx)(RefBody(names, sym)) == Some(sym) {
      ParseRefText(names, idx, sym);
    }
  }

  /** Conversely, a template written out from its parts is cut back into them. */
  lemma {:induction false} PartsRoundTrip(before: string, t: Template, names: seq<string>, parse: RefParser)
    requires Reads(parse, names) && PartsOk(t, names)
    ensures Cut(before + Interpolate(t.lits, RefTexts(names, t.syms)), |before|, parse) == Some(t)
    decreases |t.syms|
  {
    if t.syms == [] {
      CutLast(before, t.lits[0], parse);
      assert t.lits == [t.lits[0]] && Interpolate(t.lits, RefTexts(names, t.syms)) == t.lits[0];
    } else {
      var sym, lit, rest := t.syms[0], t.lits[0], Template(t.lits[1..], t.syms[1..]);
      SplitFirst(t, names);
      var ref, after := RefText(names, sym), Interpolate(rest.lits, RefTexts(names, rest.syms));
      InterpolateStep(t, lit, sym, rest, names, after);
      Regroup(before, lit, ref, after);
      PartsRoundTrip(before + lit + ref, rest, names, parse);
      CutFirst(before + lit + ref + after, before, lit, sym, after, names, parse);
    }
  }

  /** The same for a rule's own references. */
  lemma WrittenTemplate(t: Template, names: seq<string>, idx: map<string, nat>)
    requires Indexes(names, idx) && PartsOk(t, names)
    ensures Cut(Interpolate(t.lits, RefTexts(names, t.syms)), 0, Parser(idx)) == Some(t)
  {
    ParserReads(names, idx);
    PartsRoundTrip("", t, names, Parser(idx));
    assert "" + Interpolate(t.lits, RefTexts(names, t.syms)) == Interpolate(t.lits, RefTexts(names, t.syms));
  }

  lemma SplitFirst(t: Template, names: seq<string>)
    requires PartsOk(t, names) && t.syms != []
    ensures t == Template([t.lits[0]] + t.lits[1..], [t.syms[0]] + t.syms[1..])
    ensures SymbolOk(names, t.syms[0]) && PartsOk(Template(t.lits[1..], t.syms[1..]), names)
    ensures NoOpen(t.lits[0]) && NameOk(names[t.syms[0].cond])
  {
    assert SymbolOk(names, t.syms[0]);
  }

  /** No opening is left in the text between the references. */
  lemma {:induction false} CutLits(s: string, i: nat, parse: RefParser)
    requires i <= |s| && Cut(s, i, parse).Some?
    ensures forall k | 0 <= k < |Cut(s, i, parse).value.lits| :: NoOpen(Cut(s, i, parse).value.lits[k])
    decreases |s| - i
  {
    var open := FindOpen(s, i);
    OpenFirst(s, i);
    assert NoOpen(s[i..open]) by {
      forall j: nat | j < open - i ensures !OpenAt(s[i..open], j) { assert !OpenAt(s, i + j); }
    }
    if open < |s| {
      var close := FindChar(s, '}', open);
      CutSome(s, i, open, close, parse);
      CutLits(s, close + 1, parse);
      var t, rest := Cut(s, i, parse).value, Cut(s, close + 1, parse).value;
      forall k | 0 <= k < |t.lits| ensures NoOpen(t.lits[k]) {
        assert k > 0 ==> t.lits[k] == rest.lits[k - 1];
      }
    } else {
      assert s[i..open] == s[i..];
    }
  }

  lemma {:induction false} OpenFirst(s: string, i: nat)
    requires i <= |s|
    ensures forall j | i <= j < FindOpen(s, i) :: !OpenAt(s, j)
    decreases |s| - i
  {
    if i < |s| && !OpenAt(s, i) { OpenFirst(s, i + 1); }
  }

  /** Exactly which templates are accepted, and as what: a template is cut into t
      exactly when it is t written out, with no opening in the text between the
      references and every reference one of the rule's. */
  lemma CutExact(s: string, t: Template, names: seq<string>, idx: map<string, nat>)
    requires Indexes(names, idx) && forall i | 0 <= i < |names| :: NameOk(names[i])
    ensures Cut(s, 0, Parser(idx)) == Some(t) <==>
            PartsOk(t, names) && Interpolate(t.lits, RefTexts(names, t.syms)) == s
  {
    if Cut(s, 0, Parser(idx)) == Some(t) {
      TemplateRoundTrip(s, names, idx);
      CutLits(s, 0, Parser(idx));
    }
    if PartsOk(t, names) && Interpolate(t.lits, RefTexts(names, t.syms)) == s { WrittenTemplate(t, names, idx); }
  }

  predicate NoBrace(s: string)
  {
    forall i | 0 <= i < |s| :: s[i] != '}'
  }

  lemma BodyOk(names: seq<string>, sym: Symbol)
    requires SymbolOk(names, sym) && NameOk(names[sym.cond])
    ensures NoBrace(RefBody(names, sym))
  {
    WhatText1(sym.what);
  }

  lemma Regroup(before: string, lit: string, ref: string, after: string)
    ensures before + (lit + ref + after) == before + lit + ref + after
  {
  }

  lemma CutLast(before: string, lit: string, parse: RefParser)
    requires NoOpen(lit)
    ensures Cut(before + lit, |before|, parse) == Some(Template([lit], []))
  {
    var s := before + lit;
    forall j | |before| <= j < |s| ensures !OpenAt(s, j) {
      assert !OpenAt(lit, j - |before|);
    }
    FindOpenFirst(s, |before|, |s|);
    assert s[|before|..] == lit;
  }

  lemma CutFirst(s: string, before: string, lit: string, sym: Symbol, after: string, names: seq<string>,
                 parse: RefParser)
    requires Reads(parse, names) && SymbolOk(names, sym) && NameOk(names[sym.cond]) && NoOpen(lit)
    requires s == before + lit + RefText(names, sym) + after
    ensures Cut(s, |before|, parse) == Cons(lit, sym, Cut(s, |before + lit + RefText(names, sym)|, parse))
  {
    var body := RefBody(names, sym);
    BodyOk(names, sym);
    Layout(before, lit, body, after);
    CutScanned(s, |before|, |before + lit + RefText(names, sym)|, lit, body, parse, sym);
  }

  lemma CutScanned(s: string, i: nat, next: nat, lit: string, body: string, parse: RefParser, sym: Symbol)
    requires NoOpen(lit) && NoBrace(body) && LaidOut(s, i, lit, body) && parse(body) == Some(sym)
    requires next == i + |lit| + |body| + 3
    ensures Cut(s, i, parse) == Cons(lit, sym, Cut(s, next, parse))
  {
    Scan(s, i, lit, body);
    assert s[i..i + |lit|] == lit && s[i + |lit| + 2..i + |lit| + 2 + |body|] == body;
    CutAt(s, i, i + |lit|, i + |lit| + 2 + |body|, parse, sym);
  }

  /** A literal text and a reference stand at `i`. */
  predicate LaidOut(s: string, i: nat, lit: string, body: string)
  {
    var open := i + |lit|;
    && open + |body| + 3 <= |s| && OpenAt(s, open) && s[open + 2 + |body|] == '}'
    && s[i..open] == lit && s[open + 2..open + 2 + |body|] == body
  }

  lemma Layout(before: string, lit: string, body: string, after: string)
    ensures |before + lit + ("${" + body + "}")| == |before| + |lit| + |body| + 3
    ensures LaidOut(before + lit + ("${" + body + "}") + after, |before|, lit, body)
  {
  }

  lemma Scan(s: string, i: nat, lit: string, body: string)
    requires NoOpen(lit) && NoBrace(body) && LaidOut(s, i, lit, body)
    ensures FindOpen(s, i) == i + |lit| && FindChar(s, '}', i + |lit|) == i + |lit| + 2 + |body|
  {
    var open, close := i + |lit|, i + |lit| + 2 + |body|;
    forall j | i <= j < open ensures !OpenAt(s, j) {
      assert s[j] == lit[j - i];
      if j + 1 < open { assert s[j + 1] == lit[j + 1 - i] && !OpenAt(lit, j - i); }
    }
    forall j | open <= j < close ensures s[j] != '}' {
      if j >= open + 2 { assert s[j] == body[j - open - 2]; }
    }
    FindOpenFirst(s, i, open);
    FindCharFirst(s, '}', open, close);
  }
}
