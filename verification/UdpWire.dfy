/** The UDP text format: what the destination prints and what the receiver
    makes of it. */
module UdpWire {
  import opened Options
  import opened Texts

  // ------------------------------------------------------------------ printing

  function Digit(d: nat): char
  {
    if d < 10 then ('0' as int + d) as char else '0'
  }

  /** std::to_string of a number that is not negative. */
  function Show(n: nat): string
  {
    if n < 10 then [Digit(n)] else Show(n / 10) + [Digit(n % 10)]
  }

  predicate IsDigit(c: char) { '0' <= c <= '9' }

  predicate AllDigits(s: string)
  {
    forall i | 0 <= i < |s| :: IsDigit(s[i])
  }

  lemma {:induction false} ShowDigits(n: nat)
    ensures Show(n) != [] && AllDigits(Show(n))
  {
    if n >= 10 { ShowDigits(n / 10); }
  }

  /** The number a row of digits stands for. */
  function ValueOf(s: string): nat
    requires AllDigits(s)
  {
    if s == [] then 0 else 10 * ValueOf(s[..|s| - 1]) + (s[|s| - 1] as int - '0' as int)
  }

  /** The digits of a number stand for it, and no zero leads. */
  lemma {:induction false} ShowMeaning(n: nat)
    ensures Show(n) != [] && AllDigits(Show(n)) && ValueOf(Show(n)) == n
    ensures n > 0 ==> Show(n)[0] != '0'
  {
    ShowDigits(n);
    if n < 10 {
      assert Show(n)[..0] == [];
    } else {
      ShowMeaning(n / 10);
      assert Show(n)[..|Show(n)| - 1] == Show(n / 10);
    }
  }

  predicate NoBar(s: string)
  {
    forall i | 0 <= i < |s| :: s[i] != '|'
  }

  /** A bar is shown as an exclamation mark, so that the result is one token; text
      without a bar is left alone. */
  function Escape(s: string): (r: string)
    ensures |r| == |s| && NoBar(r) && (NoBar(s) ==> r == s)
  {
    seq(|s|, i requires 0 <= i < |s| => if s[i] == '|' then '!' else s[i])
  }

  /** At each bar stands an exclamation mark instead, and nothing else changes. */
  lemma EscapeAtBar(s: string, t: string)
    requires NoBar(s)
    ensures Escape(s + "|" + t) == s + "!" + Escape(t)
  {
    var all, r := s + "|" + t, s + "!" + Escape(t);
    forall i | 0 <= i < |all| ensures Escape(all)[i] == r[i] {
      if i > |s| { assert all[i] == t[i - |s| - 1]; }
    }
  }

  // --------------------------------------------------------- the file's name

  predicate StartsAt(s: string, i: nat, part: string)
  {
    i + |part| <= |s| && s[i..i + |part|] == part
  }

  /** What follows the last `c`; all of it if there is none. */
  function AfterLast(s: string, c: char): string
  {
    if s == [] || s[|s| - 1] == c then [] else AfterLast(s[..|s| - 1], c) + [s[|s| - 1]]
  }

  /** Where `part` first occurs at or after i; |s| if nowhere. */
  function FirstAt(s: string, part: string, i: nat): (p: nat)
    requires i <= |s| && part != ""
    ensures i <= p <= |s| && (p < |s| ==> StartsAt(s, p, part))
    ensures forall k: nat | i <= k < p :: !StartsAt(s, k, part)
    decreases |s| - i
  {
    if i == |s| || StartsAt(s, i, part) then i else FirstAt(s, part, i + 1)
  }

  /** The first slash at or after i; |s| if there is none. */
  function Slash(s: string, i: nat): (q: nat)
    requires i <= |s|
    ensures i <= q <= |s| && (q < |s| ==> s[q] == '/') && forall k | i <= k < q :: s[k] != '/'
    decreases |s| - i
  {
    if i == |s| || s[i] == '/' then i else Slash(s, i + 1)
  }

  /** The file name cut by the delimiter: a single character from behind, a longer
      one from the front and up to the next slash. None: the search for that slash
      runs over the end of the name. */
  function Trimmed(delim: string, name: string): Option<string>
  {
    if delim == "" then Some(name)
    else if |delim| == 1 then Some(AfterLast(name, delim[0]))
    else
      var p := FirstAt(name, delim, 0);
      if p == |name| then Some(name)
      else
        var q := Slash(name, p + |delim| - 1);
        if q == |name| then None else Some(name[q + 1..])
  }

  lemma {:induction false} AfterLastMeaning(s: string, c: char) returns (pre: string)
    ensures c !in AfterLast(s, c)
    ensures c in s ==> s == pre + [c] + AfterLast(s, c)
    ensures c !in s ==> AfterLast(s, c) == s
  {
    pre := "";
    if s != [] {
      var front, last := s[..|s| - 1], s[|s| - 1];
      assert s == front + [last];
      if last == c {
        pre := front;
        assert s == pre + [c] + [];
      } else {
        pre := AfterLastMeaning(front, c);
        if c in front { assert pre + [c] + AfterLast(front, c) + [last] == pre + [c] + (AfterLast(front, c) + [last]); }
      }
    }
  }

  /** q is the first slash from i on, and `rest` follows it. */
  predicate AfterSlash(s: string, i: nat, q: nat, rest: string)
  {
    i <= q < |s| && s[q] == '/' && (forall k | i <= k < q :: s[k] != '/') && rest == s[q + 1..]
  }

  ghost predicate FollowsSlash(s: string, i: nat, rest: string)
  {
    exists q: nat :: AfterSlash(s, i, q, rest)
  }

  /** A one-character delimiter leaves what follows its last occurrence. A longer
      one that ends in a slash leaves what follows its first occurrence. Any other
      leaves what follows the first slash from that occurrence's last character on,
      and fails exactly when there is none. No delimiter leaves the whole name. */
  lemma TrimmedMeaning(delim: string, name: string) returns (pre: string)
    ensures delim == "" ==> Trimmed(delim, name) == Some(name)
    ensures |delim| == 1 ==>
              && Trimmed(delim, name).Some? && delim[0] !in Trimmed(delim, name).value
              && name == if delim[0] in name then pre + delim + Trimmed(delim, name).value
                         else Trimmed(delim, name).value
    ensures |delim| > 1 ==>
              var p := FirstAt(name, delim, 0);
              && (p == |name| ==> Trimmed(delim, name) == Some(name))
              && (p < |name| && delim[|delim| - 1] == '/' ==> Trimmed(delim, name) == Some(name[p + |delim|..]))
              && (p < |name| && Trimmed(delim, name).Some? ==>
                    FollowsSlash(name, p + |delim| - 1, Trimmed(delim, name).value))
              && (Trimmed(delim, name).None? <==>
                    p < |name| && forall k | p + |delim| - 1 <= k < |name| :: name[k] != '/')
  {
    pre := "";
    if |delim| == 1 {
      pre := AfterLastMeaning(name, delim[0]);
      assert delim == [delim[0]];
    } else if |delim| > 1 {
      var p := FirstAt(name, delim, 0);
      if p < |name| {
        assert name[p..p + |delim|][|delim| - 1] == name[p + |delim| - 1];
        var q := Slash(name, p + |delim| - 1);
        assert q < |name| ==> AfterSlash(name, p + |delim| - 1, q, Trimmed(delim, name).value);
      }
    }
  }

  /** The message's own part of a packet. */
  datatype Message = Message(time: string, severity: string, category: string, iteration: string, modul: string,
                             file: string, line: nat, items: seq<string>)

  /** fillUsrMsg: the items in a row, without a leading newline. */
  function Body(items: seq<string>): string
  {
    var all := Concat(items);
    if all != [] && all[0] == '\n' then all[1..] else all
  }

  /** What is sent of a text: all of it, but for one leading newline. */
  predicate SentOf(text: string, sent: string)
  {
    if text != "" && text[0] == '\n' then text == "\n" + sent else text == sent
  }

  /** The body is the items' text in a row, without one leading newline. */
  lemma BodyMeaning(items: seq<string>, sent: string)
    ensures Body(items) == sent <==> SentOf(Concat(items), sent)
  {
    var all := Concat(items);
    if all != "" { assert all == [all[0]] + all[1..]; }
    if all == "\n" + sent { assert all[1..] == sent; }
  }

  /** A text that does not start with a newline is sent whole; of "\n" followed by a
      text exactly the text is sent, even if that starts with a newline. */
  lemma OneNewline(items: seq<string>, x: string)
    ensures Concat(items) == "\n" + x ==> Body(items) == x
    ensures Concat(items) == x && (x == "" || x[0] != '\n') ==> Body(items) == x
    ensures Body([x]) == if x != "" && x[0] == '\n' then x[1..] else x
  {
    BodyMeaning(items, x);
    assert Concat([x]) == x;
  }

  /** The message with its file name as printed. */
  function Shown(m: Message, delim: string): Message
    requires Trimmed(delim, m.file).Some?
  {
    m.(file := Trimmed(delim, m.file).value)
  }

  /** The printed fields in order, before the body. */
  function Fields(m: Message, host: string, addr: string, app: string, pid: nat, seqNum: nat): seq<string>
  {
    ["UDPMFMESSAGE" + Show(pid)] + Origin(m, host, addr, seqNum) + Place(m, app, pid)
  }

  function Origin(m: Message, host: string, addr: string, seqNum: nat): seq<string>
  {
    [m.time, Show(seqNum), host, addr, m.severity, Escape(m.category)]
  }

  function Place(m: Message, app: string, pid: nat): seq<string>
  {
    [Escape(app), Show(pid), m.iteration, Escape(m.modul), m.file, Show(m.line)]
  }

  /** Every field followed by a bar. */
  function Barred(fields: seq<string>): string
  {
    if fields == [] then "" else fields[0] + "|" + Barred(fields[1..])
  }

  class Sender {
    const host: string
    const addr: string
    const app: string
    const pid: nat
    const delim: string
    var seqNum: nat

    constructor (host: string, addr: string, app: string, pid: nat, delim: string)
      ensures this.host == host && this.addr == addr && this.app == app && this.pid == pid && this.delim == delim
      ensures seqNum == 0
    {
      this.host, this.addr, this.app, this.pid, this.delim := host, addr, app, pid, delim;
      seqNum := 0;
    }

    method FillPrefix(oss: string, m: Message) returns (r: string)
      requires Trimmed(delim, m.file).Some?
      modifies this`seqNum
      ensures seqNum == old(seqNum) + 1
      ensures r == oss + Barred(Origin(m, host, addr, seqNum)) + Barred(Place(Shown(m, delim), app, pid))
    {
      seqNum := seqNum + 1;
      r := FillOrigin(oss, m);
      var file := Trim(m.file);
      r := FillPlace(r, m.(file := file));
    }

    method Trim(name: string) returns (r: string)
      requires Trimmed(delim, name).Some?
      ensures Some(r) == Trimmed(delim, name)
    {
      if |delim| == 0 { return name; }
      if |delim| == 1 { return AfterLast(name, delim[0]); }
      var p := FirstAt(name, delim, 0);
      if p == |name| { return name; }
      p := p + |delim| - 1;
      ghost var from := p;
      while p < |name| && name[p] != '/'
        invariant from <= p <= |name| && Slash(name, from) == Slash(name, p)
      {
        p := p + 1;
      }
      return name[p + 1..];
    }

    method FillOrigin(oss: string, m: Message) returns (r: string)
      ensures r == oss + Barred(Origin(m, host, addr, seqNum))
    {
      ghost var f := Origin(m, host, addr, seqNum);
      assert f[..0] == [] && oss + "" == oss;
      r := PutField(oss, m.time, oss, f, 0);
      r := PutField(r, Show(seqNum), oss, f, 1);
      r := PutField(r, host, oss, f, 2);
      r := PutField(r, addr, oss, f, 3);
      r := PutField(r, m.severity, oss, f, 4);
      r := PutField(r, Escape(m.category), oss, f, 5);
      assert f[..6] == f;
    }

    method FillPlace(oss: string, m: Message) returns (r: string)
      ensures r == oss + Barred(Place(m, app, pid))
    {
      ghost var f := Place(m, app, pid);
      assert f[..0] == [] && oss + "" == oss;
      r := PutField(oss, Escape(app), oss, f, 0);
      r := PutField(r, Show(pid), oss, f, 1);
      r := PutField(r, m.iteration, oss, f, 2);
      r := PutField(r, Escape(m.modul), oss, f, 3);
      r := PutField(r, m.file, oss, f, 4);
      r := PutField(r, Show(m.line), oss, f, 5);
      assert f[..6] == f;
    }

    /** One field and its bar; `base` and the fields before it are printed. */
    method PutField(oss: string, field: string, ghost base: string, ghost f: seq<string>, ghost k: nat)
      returns (r: string)
      requires k < |f| && field == f[k] && oss == base + Barred(f[..k])
      ensures r == base + Barred(f[..k + 1])
    {
      assert f[..k + 1] == f[..k] + [field];
      BarredSnoc(f[..k], field);
      r := oss + field + "|";
    }

    method FillUsrMsg(oss: string, m: Message) returns (r: string)
      ensures r == oss + Body(m.items)
      ensures forall sent | SentOf(Concat(m.items), sent) :: r == oss + sent
    {
      var tmp := "";
      for i := 0 to |m.items|
        invariant tmp + Concat(m.items[i..]) == Concat(m.items)
      {
        assert m.items[i..][1..] == m.items[i + 1..];
        tmp := tmp + m.items[i];
      }
      assert m.items[|m.items|..] == [];
      r := oss + if |tmp| > 0 && tmp[0] == '\n' then tmp[1..] else tmp;
      forall sent | SentOf(Concat(m.items), sent) ensures sent == Body(m.items) { BodyMeaning(m.items, sent); }
    }

    /** A message printed and routed: the packet handed to sendto. */
    method Packet(m: Message) returns (r: string)
      requires Trimmed(delim, m.file).Some?
      modifies this`seqNum
      ensures seqNum == old(seqNum) + 1
      ensures r == PacketOf(Fields(Shown(m, delim), host, addr, app, pid, seqNum), Body(m.items))
    {
      var oss := FillPrefix("", m);
      oss := FillUsrMsg(oss, m);
      r := "UDPMFMESSAGE" + Show(pid) + "|" + oss;
      PacketParts("UDPMFMESSAGE" + Show(pid), Origin(m, host, addr, seqNum), Place(Shown(m, delim), app, pid),
                  Body(m.items));
    }
  }

  function PacketOf(fields: seq<string>, body: string): string
  {
    Barred(fields) + body
  }

  lemma PacketParts(head: string, origin: seq<string>, place: seq<string>, body: string)
    ensures PacketOf([head] + origin + place, body) == head + "|" + ("" + Barred(origin) + Barred(place) + body)
  {
    assert [head] + origin + place == [head] + (origin + place);
    BarredConcat(origin, place);
    BarredHead(head, origin + place);
    Regroup(head + "|", Barred(origin), Barred(place), body);
  }

  lemma BarredHead(head: string, rest: seq<string>)
    ensures Barred([head] + rest) == head + "|" + Barred(rest)
  {
    assert ([head] + rest)[1..] == rest;
  }

  lemma Regroup(head: string, a: string, b: string, c: string)
    ensures head + (a + b) + c == head + ("" + a + b + c)
  {
    assert "" + a == a;
  }

  lemma {:induction false} BarredConcat(a: seq<string>, b: seq<string>)
    ensures Barred(a + b) == Barred(a) + Barred(b)
  {
    if a == [] {
      assert a + b == b;
    } else {
      BarredConcat(a[1..], b);
      assert (a + b)[1..] == a[1..] + b;
    }
  }

  lemma {:induction false} BarredSnoc(fields: seq<string>, x: string)
    ensures Barred(fields + [x]) == Barred(fields) + x + "|"
  {
    if fields == [] {
      assert fields + [x] == [x];
      assert Barred([]) == "" && x + "|" + "" == x + "|";
    } else {
      BarredSnoc(fields[1..], x);
      assert (fields + [x])[1..] == fields[1..] + [x];
    }
  }

  // ---------------------------------------------------------------- tokenizing

  /** The first bar; |s| if there is none. */
  function Bar(s: string): (r: nat)
    ensures r <= |s| && (r < |s| ==> s[r] == '|')
  {
    if s == [] || s[0] == '|' then 0 else 1 + Bar(s[1..])
  }

  lemma {:induction false} BarFirst(t: string, rest: string)
    requires NoBar(t)
    ensures Bar(t + "|" + rest) == |t|
  {
    var s := t + "|" + rest;
    if t != [] {
      BarFirst(t[1..], rest);
      assert s[0] == t[0] && s[1..] == t[1..] + "|" + rest;
    }
  }

  /** What tokenize_ cuts a string into. */
  function Tokens(s: string): seq<string>
  {
    if s == [] then [] else [s[..Bar(s)]] + if Bar(s) == |s| then [] else Tokens(s[Bar(s) + 1..])
  }

  method Tokenize(input: string) returns (output: seq<string>)
    ensures output == Tokens(input)
  {
    var pos := 0;
    output := [];
    assert input[0..] == input;
    while pos < |input|
      invariant pos <= |input| && Tokens(input) == output + Tokens(input[pos..])
      decreases |input| - pos
    {
      var bar := pos + Bar(input[pos..]);
      TokensAt(input, pos, bar);
      assert forall rest :: output + ([input[pos..bar]] + rest) == output + [input[pos..bar]] + rest;
      output := output + [input[pos..bar]];
      pos := if bar < |input| then bar + 1 else bar;
    }
  }

  lemma TokensAt(input: string, pos: nat, bar: nat)
    requires pos < |input| && bar == pos + Bar(input[pos..])
    ensures Tokens(input[pos..]) == [input[pos..bar]] + Tokens(input[if bar < |input| then bar + 1 else bar..])
  {
    assert input[pos..][..bar - pos] == input[pos..bar];
    if bar < |input| { assert input[pos..][bar - pos + 1..] == input[bar + 1..]; } else { assert input[bar..] == []; }
  }

  function Join(tokens: seq<string>): string
  {
    if tokens == [] then ""
    else if |tokens| == 1 then tokens[0]
    else tokens[0] + "|" + Join(tokens[1..])
  }

  /** The string without one trailing bar. */
  function StripBar(s: string): string
  {
    if s != [] && s[|s| - 1] == '|' then s[..|s| - 1] else s
  }

  lemma StripSplit(t: string, rest: string)
    ensures StripBar(t + "|" + rest) == if rest == "" then t else t + "|" + StripBar(rest)
  {
    var s := t + "|" + rest;
    if rest == "" {
      assert s[..|s| - 1] == t;
    } else {
      assert s[|s| - 1] == rest[|rest| - 1];
      if rest[|rest| - 1] == '|' { assert s[..|s| - 1] == t + "|" + rest[..|rest| - 1]; }
    }
  }

  /** Joining the tokens gives the input back, but for one trailing bar. */
  lemma {:induction false} JoinTokens(s: string)
    ensures Join(Tokens(s)) == StripBar(s)
    decreases |s|
  {
    if s != [] {
      var bar := Bar(s);
      if bar == |s| {
        NoBarAtEnd(s);
      } else {
        JoinTokens(s[bar + 1..]);
        StripSplit(s[..bar], s[bar + 1..]);
        SplitAt(s, bar);
        JoinCons(s[..bar], Tokens(s[bar + 1..]));
      }
    }
  }

  lemma {:induction false} NoBarAtEnd(s: string)
    requires Bar(s) == |s|
    ensures StripBar(s) == s && s[..|s|] == s
  {
    if |s| > 1 { NoBarAtEnd(s[1..]); }
  }

  lemma SplitAt(s: string, bar: nat)
    requires bar < |s| && s[bar] == '|'
    ensures s == s[..bar] + "|" + s[bar + 1..]
  {
  }

  lemma JoinCons(t: string, rest: seq<string>)
    ensures Join([t] + rest) == if rest == [] then t else t + "|" + Join(rest)
  {
    assert ([t] + rest)[1..] == rest;
  }

  // ------------------------------------------------- tokens of a printed packet

  lemma TokensField(field: string, rest: string)
    requires NoBar(field)
    ensures Tokens(field + "|" + rest) == [field] + Tokens(rest)
  {
    var s := field + "|" + rest;
    BarFirst(field, rest);
    assert s[..|field|] == field && s[|field| + 1..] == rest;
  }

  /** Fields without bars are the first tokens, those of the body follow. */
  lemma {:induction false} TokensPacket(fields: seq<string>, body: string)
    requires forall i | 0 <= i < |fields| :: NoBar(fields[i])
    ensures Tokens(PacketOf(fields, body)) == fields + Tokens(body)
  {
    if fields == [] {
      assert PacketOf(fields, body) == body && [] + Tokens(body) == Tokens(body);
    } else {
      TokensPacket(fields[1..], body);
      TokensField(fields[0], PacketOf(fields[1..], body));
      PacketCons(fields, body);
      FirstAndRest(fields, Tokens(body));
    }
  }

  lemma FirstAndRest(fields: seq<string>, tokens: seq<string>)
    requires fields != []
    ensures [fields[0]] + (fields[1..] + tokens) == fields + tokens
  {
  }

  lemma PacketCons(fields: seq<string>, body: string)
    requires fields != []
    ensures PacketOf(fields, body) == fields[0] + "|" + PacketOf(fields[1..], body)
  {
  }
}
