/** The UDP receiver: reading a tokenized packet. */
module UdpReceive {
  import opened Texts
  import opened UdpWire

  datatype Stamp = Time(sec: int) | NoTime

  /** std::stoi and std::stol: a number, invalid_argument, or out_of_range. */
  datatype Number = Number(n: int) | NotANumber | TooBig

  /** The C library: strptime followed by mktime (it may stop before the end of
      the string), stoi and stol. */
  datatype Libc = Libc(strptime: string -> Stamp, stoi: string -> Number, stol: string -> Number)

  // --------------------------------------------------------- finding the time

  /** Hangs: the loop never ends on a non-empty rest without digits. */
  datatype Scan = Found(sec: int) | Absent | Hangs

  function FirstDigit(s: string): (r: nat)
    ensures r <= |s| && (r < |s| ==> IsDigit(s[r])) && forall i | 0 <= i < r :: !IsDigit(s[i])
  {
    if s == [] || IsDigit(s[0]) then 0 else 1 + FirstDigit(s[1..])
  }

  function ScanToken(s: string, lib: Libc): Scan
  {
    var d := FirstDigit(s);
    if s == [] then Absent
    else if d == |s| then Hangs
    else
      match lib.strptime(s[d..])
      case Time(sec) => Found(sec)
      case NoTime => ScanToken(s[d + 1..], lib)
  }

  method ScanOne(token: string, lib: Libc) returns (r: Scan)
    ensures r == ScanToken(token, lib)
  {
    var rest := token;
    while rest != ""
      invariant ScanToken(token, lib) == ScanToken(rest, lib)
      decreases |rest|
    {
      var pos := FirstDigit(rest);
      if pos == |rest| {
        return Hangs;
      }
      assert rest[pos..][1..] == rest[pos + 1..];
      rest := rest[pos..];
      var stamp := lib.strptime(rest);
      if stamp.Time? {
        return Found(stamp.sec);
      }
      rest := rest[1..];
    }
    return Absent;
  }

  /** The scan over the tokens, and the index after the token it stopped at. */
  function ScanTokens(tokens: seq<string>, i: nat, lib: Libc): (r: (Scan, nat))
    requires i <= |tokens|
    ensures r.1 <= |tokens|
    decreases |tokens| - i
  {
    if i == |tokens| then (Absent, i)
    else
      match ScanToken(tokens[i], lib)
      case Found(sec) => (Found(sec), i + 1)
      case Absent => ScanTokens(tokens, i + 1, lib)
      case Hangs => (Hangs, i)
  }

  /** No digit position before `n` starts a time. */
  ghost predicate NoTimeBefore(s: string, n: nat, lib: Libc)
  {
    forall d | 0 <= d < |s| && d < n && IsDigit(s[d]) :: lib.strptime(s[d..]) == NoTime
  }

  /** Digit position d is the first one that starts a time. */
  ghost predicate StampAt(s: string, d: nat, sec: int, lib: Libc)
  {
    d < |s| && IsDigit(s[d]) && lib.strptime(s[d..]) == Time(sec) && NoTimeBefore(s, d, lib)
  }

  ghost predicate HasStamp(s: string, sec: int, lib: Libc)
  {
    exists d: nat :: StampAt(s, d, sec, lib)
  }

  /** What the scan makes of a token: the first digit position that starts a time
      counts; without one, it ends if the last character is a digit, and never
      ends if it is not. */
  lemma {:induction false} ScanMeaning(s: string, lib: Libc)
    ensures ScanToken(s, lib) == Hangs <==> s != "" && !IsDigit(s[|s| - 1]) && NoTimeBefore(s, |s|, lib)
    ensures ScanToken(s, lib) == Absent <==> (s == "" || IsDigit(s[|s| - 1])) && NoTimeBefore(s, |s|, lib)
    ensures forall sec :: ScanToken(s, lib) == Found(sec) ==> HasStamp(s, sec, lib)
    decreases |s|
  {
    var d := FirstDigit(s);
    if d < |s| {
      if lib.strptime(s[d..]).NoTime? {
        ScanMeaning(s[d + 1..], lib);
        RestTimes(s, d, |s| - d - 1, lib);
        if ScanToken(s, lib).Found? { RestStamp(s, d, ScanToken(s, lib).sec, lib); }
      } else {
        assert StampAt(s, d, lib.strptime(s[d..]).sec, lib);
      }
    }
  }

  lemma RestStamp(s: string, d: nat, sec: int, lib: Libc)
    requires d == FirstDigit(s) < |s| && lib.strptime(s[d..]).NoTime?
    requires HasStamp(s[d + 1..], sec, lib)
    ensures HasStamp(s, sec, lib)
  {
    var k: nat :| StampAt(s[d + 1..], k, sec, lib);
    RestTimes(s, d, k, lib);
    assert s[d + 1..][k..] == s[d + 1 + k..];
    assert StampAt(s, d + 1 + k, sec, lib);
  }

  lemma DropTwice(s: string, n: nat, i: nat)
    requires n + i < |s|
    ensures s[n..][i] == s[n + i] && s[n..][i..] == s[n + i..]
  {
  }

  lemma RestTimes(s: string, d: nat, k: nat, lib: Libc)
    requires d == FirstDigit(s) < |s| && lib.strptime(s[d..]).NoTime? && k <= |s| - d - 1
    ensures NoTimeBefore(s, d + 1 + k, lib) <==> NoTimeBefore(s[d + 1..], k, lib)
  {
    var n := d + 1;
    var rest := s[n..];
    if NoTimeBefore(s, n + k, lib) {
      forall i | 0 <= i < |rest| && i < k && IsDigit(rest[i]) ensures lib.strptime(rest[i..]) == NoTime {
        DropTwice(s, n, i);
      }
    }
    if NoTimeBefore(rest, k, lib) {
      forall i | 0 <= i < |s| && i < n + k && IsDigit(s[i]) ensures lib.strptime(s[i..]) == NoTime {
        if i > d {
          DropTwice(s, n, i - n);
          assert IsDigit(rest[i - n]);
        }
      }
    }
  }

  /** The scan passes over the token. */
  predicate Passes(token: string, lib: Libc)
  {
    ScanToken(token, lib) == Absent
  }

  /** The scan never ends on token i, after passing over all earlier ones. */
  predicate HangsAt(tokens: seq<string>, i: nat, from: nat, lib: Libc)
    requires from <= i < |tokens|
  {
    ScanToken(tokens[i], lib) == Hangs && forall j | from <= j < i :: Passes(tokens[j], lib)
  }

  ghost predicate SomeHangs(tokens: seq<string>, from: nat, lib: Libc)
    requires from <= |tokens|
  {
    exists k | from <= k < |tokens| :: HangsAt(tokens, k, from, lib)
  }

  lemma {:induction false} TokensHang(tokens: seq<string>, i: nat, lib: Libc)
    requires i <= |tokens|
    ensures ScanTokens(tokens, i, lib).0.Hangs? <==> SomeHangs(tokens, i, lib)
    decreases |tokens| - i
  {
    if i < |tokens| {
      TokensHang(tokens, i + 1, lib);
      HangsLater(tokens, i, lib);
    }
  }

  lemma HangsLater(tokens: seq<string>, i: nat, lib: Libc)
    requires i < |tokens|
    ensures SomeHangs(tokens, i, lib) <==>
            ScanToken(tokens[i], lib).Hangs? || (Passes(tokens[i], lib) && SomeHangs(tokens, i + 1, lib))
  {
    var n := i + 1;
    if Passes(tokens[i], lib) && SomeHangs(tokens, n, lib) {
      var k :| n <= k < |tokens| && HangsAt(tokens, k, n, lib);
      assert HangsAt(tokens, k, i, lib);
    }
    if ScanToken(tokens[i], lib).Hangs? { assert HangsAt(tokens, i, i, lib); }
    if k :| i <= k < |tokens| && HangsAt(tokens, k, i, lib) {
      if k > i {
        assert Passes(tokens[i], lib);
        assert HangsAt(tokens, k, i + 1, lib);
      }
    }
  }

  // ------------------------------------------------------- reading the fields

  datatype Who = Who(host: string, addr: string, severity: string, category: string, app: string)

  datatype What = What(eventId: string, modul: string, file: string, line: string, message: string)

  datatype Received = Received(time: Stamp, seqNum: int, who: Who, pid: int, what: What)

  datatype Outcome = Msg(msg: Received) | Stuck | Thrown

  function At(tokens: seq<string>, i: nat): string
  {
    if i < |tokens| then tokens[i] else ""
  }

  function From(tokens: seq<string>, i: nat): seq<string>
  {
    if i < |tokens| then tokens[i..] else []
  }

  function NumberAt(tokens: seq<string>, i: nat, parse: string -> Number): Number
  {
    if i < |tokens| then parse(tokens[i]) else NotANumber
  }

  /** What the tokens mean when the scan for the time stopped before index `k`:
      a number after tokens[k] is taken for the sequence number. */
  function Fill(tokens: seq<string>, k: nat, time: Stamp, lib: Libc): Outcome
  {
    var seqNum := NumberAt(tokens, k + 1, lib.stoi);
    if seqNum.TooBig? then Thrown
    else if seqNum.Number? then FillFrom(tokens, k + 1, time, seqNum.n, lib)
    else FillFrom(tokens, k, time, 0, lib)
  }

  /** The host is the token after `j`. */
  function FillFrom(tokens: seq<string>, j: nat, time: Stamp, seqNum: int, lib: Libc): Outcome
  {
    var pid := NumberAt(tokens, j + 6, lib.stol);
    if pid.TooBig? then Thrown
    else
      var p := if pid.Number? then j + 6 else j + 5;
      Msg(Received(time, seqNum, WhoAt(tokens, j), if pid.Number? then pid.n else 0, WhatAt(tokens, p)))
  }

  function WhoAt(tokens: seq<string>, j: nat): Who
  {
    Who(At(tokens, j + 1), At(tokens, j + 2), At(tokens, j + 3), At(tokens, j + 4), At(tokens, j + 5))
  }

  function WhatAt(tokens: seq<string>, p: nat): What
  {
    What(At(tokens, p + 1), At(tokens, p + 2), At(tokens, p + 3), At(tokens, p + 4), Join(From(tokens, p + 5)))
  }

  function Read(input: string, lib: Libc): Outcome
  {
    var tokens := Tokens(input);
    var (scan, k) := ScanTokens(tokens, 0, lib);
    match scan
    case Hangs => Stuck
    case Found(sec) => Fill(tokens, k, Time(sec), lib)
    case Absent => Fill(tokens, k, NoTime, lib)
  }

  /** Reading never ends exactly when some token, with no time before it, has no
      time and ends in a character that is not a digit. */
  lemma ReadStuck(input: string, lib: Libc)
    ensures Read(input, lib) == Stuck <==> SomeHangs(Tokens(input), 0, lib)
  {
    TokensHang(Tokens(input), 0, lib);
  }

  /** Steps the iterator, if it is not at the end, and reads what is there. */
  method Step(tokens: seq<string>, it: nat, ghost want: nat) returns (r: nat, v: string)
    requires it == Clamp(want, tokens)
    ensures r == Clamp(want + 1, tokens) && v == At(tokens, want + 1)
  {
    r, v := it, "";
    if it < |tokens| {
      r := it + 1;
      if r < |tokens| { v := tokens[r]; }
    }
  }

  function Clamp(i: nat, tokens: seq<string>): nat
  {
    if i < |tokens| then i else |tokens|
  }

  method ReadMsg(input: string, lib: Libc) returns (r: Outcome)
    ensures r == Read(input, lib)
  {
    var tokens := Tokenize(input);
    var it := 0;
    var time := NoTime;
    var found := false;
    while it < |tokens| && !found
      invariant it <= |tokens|
      invariant ScanTokens(tokens, 0, lib) == if time.Time? then (Found(time.sec), it) else ScanTokens(tokens, it, lib)
      invariant found == time.Time?
      decreases |tokens| - it
    {
      var scan := ScanOne(tokens[it], lib);
      match scan {
        case Hangs => return Stuck;
        case Found(sec) => time, found := Time(sec), true;
        case Absent =>
      }
      it := it + 1;
    }
    r := ReadFields(tokens, it, time, lib);
  }

  method ReadFields(tokens: seq<string>, k: nat, time: Stamp, lib: Libc) returns (r: Outcome)
    requires k <= |tokens|
    ensures r == Fill(tokens, k, time, lib)
  {
    var it := k;
    var seqNum := 0;
    if it < |tokens| && it + 1 < |tokens| {
      match lib.stoi(tokens[it + 1])
      case Number(n) => seqNum, it := n, it + 1;
      case NotANumber =>
      case TooBig => return Thrown;
    }
    r := ReadFrom(tokens, it, time, seqNum, lib);
  }

  method ReadFrom(tokens: seq<string>, j: nat, time: Stamp, seqNum: int, lib: Libc) returns (r: Outcome)
    requires j <= |tokens|
    ensures r == FillFrom(tokens, j, time, seqNum, lib)
  {
    var it, who := ReadWho(tokens, j);
    ghost var p := j + 5;
    var pid := 0;
    if it < |tokens| && it + 1 < |tokens| {
      match lib.stol(tokens[it + 1]) {
        case Number(n) => pid, it, p := n, it + 1, j + 6;
        case NotANumber =>
        case TooBig => return Thrown;
      }
    }
    var what := ReadWhat(tokens, it, p);
    r := Msg(Received(time, seqNum, who, pid, what));
  }

  method ReadWho(tokens: seq<string>, j: nat) returns (it: nat, who: Who)
    requires j <= |tokens|
    ensures it == Clamp(j + 5, tokens) && who == WhoAt(tokens, j)
  {
    it := j;
    var host, addr, severity, category, app;
    it, host := Step(tokens, it, j);
    it, addr := Step(tokens, it, j + 1);
    it, severity := Step(tokens, it, j + 2);
    it, category := Step(tokens, it, j + 3);
    it, app := Step(tokens, it, j + 4);
    who := Who(host, addr, severity, category, app);
  }

  method ReadWhat(tokens: seq<string>, start: nat, ghost p: nat) returns (what: What)
    requires start == Clamp(p, tokens)
    ensures what == WhatAt(tokens, p)
  {
    var it := start;
    var eventId, modul, file, line;
    it, eventId := Step(tokens, it, p);
    it, modul := Step(tokens, it, p + 1);
    it, file := Step(tokens, it, p + 2);
    it, line := Step(tokens, it, p + 3);
    var message := ReadBody(tokens, it);
    what := What(eventId, modul, file, line, message);
  }

  /** The remaining tokens with bars between them. */
  method ReadBody(tokens: seq<string>, start: nat) returns (message: string)
    requires start <= |tokens|
    ensures message == Join(From(tokens, start + 1))
  {
    message := "";
    var it, first := start, true;
    while it < |tokens| && it + 1 < |tokens|
      invariant start <= it <= |tokens| && (first <==> it == start)
      invariant start == |tokens| ==> message == ""
      invariant start < |tokens| ==> it < |tokens| && message == Join(tokens[start + 1..it + 1])
      decreases |tokens| - it
    {
      it := it + 1;
      JoinSnoc(tokens[start + 1..it], tokens[it]);
      assert tokens[start + 1..it + 1] == tokens[start + 1..it] + [tokens[it]];
      if !first {
        message := message + "|";
      } else {
        first := false;
      }
      message := message + tokens[it];
    }
    if start < |tokens| { assert tokens[start + 1..it + 1] == tokens[start + 1..]; }
  }

  lemma {:induction false} JoinSnoc(tokens: seq<string>, t: string)
    ensures Join(tokens + [t]) == if tokens == [] then t else Join(tokens) + "|" + t
  {
    if tokens == [] {
      assert tokens + [t] == [t];
    } else {
      JoinSnoc(tokens[1..], t);
      assert (tokens + [t])[1..] == tokens[1..] + [t];
      if |tokens| == 1 { assert tokens[1..] == []; }
    }
  }

  /** A packet that ends with its time, or has none and no field: every missing field
      is empty, and the missing numbers are 0. */
  lemma ShortPacket(input: string, lib: Libc)
    ensures var empty := Received(NoTime, 0, Who("", "", "", "", ""), 0, What("", "", "", "", ""));
            && Read("", lib) == Msg(empty)
            && (|Tokens(input)| == 1 && Passes(Tokens(input)[0], lib) ==> Read(input, lib) == Msg(empty))
            && (|Tokens(input)| == 2 && Passes(Tokens(input)[0], lib) && ScanToken(Tokens(input)[1], lib).Found? ==>
                  Read(input, lib) == Msg(empty.(time := Time(ScanToken(Tokens(input)[1], lib).sec))))
  {
    var tokens := Tokens(input);
    NothingLeft([], 0, NoTime, lib);
    if |tokens| == 1 && Passes(tokens[0], lib) {
      assert ScanTokens(tokens, 1, lib) == (Absent, 1);
      NothingLeft(tokens, 1, NoTime, lib);
    }
    if |tokens| == 2 && Passes(tokens[0], lib) && ScanToken(tokens[1], lib).Found? {
      assert ScanTokens(tokens, 0, lib) == ScanTokens(tokens, 1, lib) == (ScanToken(tokens[1], lib), 2);
      NothingLeft(tokens, 2, Time(ScanToken(tokens[1], lib).sec), lib);
    }
  }

  lemma NothingLeft(tokens: seq<string>, k: nat, time: Stamp, lib: Libc)
    requires k >= |tokens|
    ensures Fill(tokens, k, time, lib)
            == Msg(Received(time, 0, Who("", "", "", "", ""), 0, What("", "", "", "", "")))
  {
  }

  // ------------------------------------------------------------- the round trip

  /** What a sender's packet must satisfy; nothing is asked of category,
      application, module and body, nor of the host as a number. */
  ghost predicate Printable(m: Message, host: string, addr: string, pid: nat, sec: int, lib: Libc)
  {
    && NoBar(m.time) && NoBar(host) && NoBar(addr) && NoBar(m.severity) && NoBar(m.iteration) && NoBar(m.file)
    && ScanToken(m.time, lib) == Found(sec) && lib.stol(Show(pid)) == Number(pid)
    && forall s | AllDigits(s) :: lib.strptime(s) == NoTime
  }

  function PacketFor(m: Message, host: string, addr: string, app: string, pid: nat, seqNum: nat): string
  {
    PacketOf(Fields(m, host, addr, app, pid, seqNum), Body(m.items))
  }

  lemma {:induction false} DigitsAbsent(s: string, lib: Libc)
    requires AllDigits(s) && forall t | AllDigits(t) :: lib.strptime(t) == NoTime
    ensures ScanToken(s, lib) == Absent
  {
    if s != [] {
      assert FirstDigit(s) == 0 && s[0..] == s;
      DigitsAbsent(s[1..], lib);
    }
  }

  lemma {:induction false} SkipLetters(head: string, s: string)
    requires forall i | 0 <= i < |head| :: !IsDigit(head[i])
    requires s != [] && AllDigits(s)
    ensures FirstDigit(head + s) == |head|
  {
    if head != [] {
      SkipLetters(head[1..], s);
      assert (head + s)[1..] == head[1..] + s && (head + s)[0] == head[0];
    }
  }

  /** The leading token is passed over, whatever the process id. */
  lemma HeadAbsent(pid: nat, lib: Libc)
    requires forall t | AllDigits(t) :: lib.strptime(t) == NoTime
    ensures ScanToken("UDPMFMESSAGE" + Show(pid), lib) == Absent
  {
    ShowDigits(pid);
    var head, digits := "UDPMFMESSAGE", Show(pid);
    SkipLetters(head, digits);
    assert (head + digits)[|head|..] == digits && (head + digits)[|head| + 1..] == digits[1..];
    DigitsAbsent(digits[1..], lib);
  }

  lemma FieldsNoBar(m: Message, host: string, addr: string, app: string, pid: nat, seqNum: nat, sec: int, lib: Libc)
    requires Printable(m, host, addr, pid, sec, lib)
    ensures forall i | 0 <= i < 13 :: NoBar(Fields(m, host, addr, app, pid, seqNum)[i])
  {
    ShowDigits(pid);
    ShowDigits(seqNum);
    ShowDigits(m.line);
  }

  /** Reading a packet starts behind the time, at the sequence number. */
  lemma PacketTokens(m: Message, host: string, addr: string, app: string, pid: nat, seqNum: nat, sec: int, lib: Libc)
    requires Printable(m, host, addr, pid, sec, lib)
    ensures var tokens := Fields(m, host, addr, app, pid, seqNum) + Tokens(Body(m.items));
            && Tokens(PacketFor(m, host, addr, app, pid, seqNum)) == tokens
            && Read(PacketFor(m, host, addr, app, pid, seqNum), lib) == Fill(tokens, 2, Time(sec), lib)
  {
    FieldsNoBar(m, host, addr, app, pid, seqNum, sec, lib);
    TokensPacket(Fields(m, host, addr, app, pid, seqNum), Body(m.items));
    HeadAbsent(pid, lib);
    var tokens := Fields(m, host, addr, app, pid, seqNum) + Tokens(Body(m.items));
    assert tokens[0] == "UDPMFMESSAGE" + Show(pid) && tokens[1] == m.time;
    assert ScanTokens(tokens, 0, lib) == ScanTokens(tokens, 1, lib) == (Found(sec), 2);
  }

  /** A host that stoi rejects: everything comes back, with escaped bars, and the
      items' text without one leading newline and without one last bar. The sequence
      number does not. */
  lemma RoundTrip(m: Message, host: string, addr: string, app: string, pid: nat, seqNum: nat, sec: int, lib: Libc,
                  sent: string)
    requires Printable(m, host, addr, pid, sec, lib) && lib.stoi(host).NotANumber?
    requires SentOf(Concat(m.items), sent)
    ensures Read(PacketFor(m, host, addr, app, pid, seqNum), lib)
            == Msg(Received(Time(sec), 0, Who(host, addr, m.severity, Escape(m.category), Escape(app)), pid,
                            What(m.iteration, Escape(m.modul), m.file, Show(m.line), StripBar(sent))))
  {
    BodyMeaning(m.items, sent);
    PacketTokens(m, host, addr, app, pid, seqNum, sec, lib);
    var f, body := Fields(m, host, addr, app, pid, seqNum), Tokens(Body(m.items));
    FieldsAt(m, host, addr, app, pid, seqNum, body);
    JoinTokens(Body(m.items));
  }

  /** The fields among the tokens, counted from the token before the host. */
  lemma FieldsAt(m: Message, host: string, addr: string, app: string, pid: nat, seqNum: nat, body: seq<string>)
    ensures var tokens := Fields(m, host, addr, app, pid, seqNum) + body;
            && |tokens| >= 13 && tokens[3] == host && tokens[8] == Show(pid) && tokens[9] == m.iteration
            && WhoAt(tokens, 2) == Who(host, addr, m.severity, Escape(m.category), Escape(app))
            && WhoAt(tokens, 3) == Who(addr, m.severity, Escape(m.category), Escape(app), Show(pid))
            && WhatAt(tokens, 8) == What(m.iteration, Escape(m.modul), m.file, Show(m.line), Join(body))
  {
    var f := Fields(m, host, addr, app, pid, seqNum);
    assert forall i | 0 <= i < 13 :: (f + body)[i] == f[i];
    assert From(f + body, 13) == body;
  }

  /** A host that stoi reads as a number is taken for the sequence number, and
      every field up to the application moves by one; the rest moves too if the
      iteration is a number. */
  lemma NumericHost(m: Message, host: string, addr: string, app: string, pid: nat, seqNum: nat, sec: int, lib: Libc,
                    sent: string)
    requires Printable(m, host, addr, pid, sec, lib) && lib.stoi(host).Number?
    requires SentOf(Concat(m.items), sent)
    ensures var r := Read(PacketFor(m, host, addr, app, pid, seqNum), lib);
            if lib.stol(m.iteration).TooBig? then r == Thrown
            else r == Msg(Received(Time(sec), lib.stoi(host).n,
                                   Who(addr, m.severity, Escape(m.category), Escape(app), Show(pid)),
                                   ShiftedPid(m, lib), ShiftedWhat(m, sent, lib)))
  {
    BodyMeaning(m.items, sent);
    PacketTokens(m, host, addr, app, pid, seqNum, sec, lib);
    FieldsAt(m, host, addr, app, pid, seqNum, Tokens(Body(m.items)));
    ShiftedAt(m, host, addr, app, pid, seqNum, Tokens(Body(m.items)));
    JoinTokens(Body(m.items));
  }

  /** The iteration is read as the process id, if it is a number. */
  function ShiftedPid(m: Message, lib: Libc): int
  {
    if lib.stol(m.iteration).Number? then lib.stol(m.iteration).n else 0
  }

  /** In that case the remaining fields move by one as well, and the body loses
      its first token; otherwise they are as sent. */
  function ShiftedWhat(m: Message, sent: string, lib: Libc): What
  {
    var body := Tokens(sent);
    if lib.stol(m.iteration).Number?
    then What(Escape(m.modul), m.file, Show(m.line), At(body, 0), Join(From(body, 1)))
    else What(m.iteration, Escape(m.modul), m.file, Show(m.line), StripBar(sent))
  }

  lemma ShiftedAt(m: Message, host: string, addr: string, app: string, pid: nat, seqNum: nat, body: seq<string>)
    ensures var tokens := Fields(m, host, addr, app, pid, seqNum) + body;
            WhatAt(tokens, 9) == What(Escape(m.modul), m.file, Show(m.line), At(body, 0), Join(From(body, 1)))
  {
    var f := Fields(m, host, addr, app, pid, seqNum);
    assert forall i | 0 <= i < 13 :: (f + body)[i] == f[i];
    assert From(f + body, 14) == From(body, 1);
  }

  /** A host that is a number out of range: the exception escapes. */
  lemma BigHost(m: Message, host: string, addr: string, app: string, pid: nat, seqNum: nat, sec: int, lib: Libc)
    requires Printable(m, host, addr, pid, sec, lib) && lib.stoi(host).TooBig?
    ensures Read(PacketFor(m, host, addr, app, pid, seqNum), lib) == Thrown
  {
    PacketTokens(m, host, addr, app, pid, seqNum, sec, lib);
    FieldsAt(m, host, addr, app, pid, seqNum, Tokens(Body(m.items)));
  }

  /** Exactly when the host comes back. */
  lemma HostRecovered(m: Message, host: string, addr: string, app: string, pid: nat, seqNum: nat, sec: int, lib: Libc)
    requires Printable(m, host, addr, pid, sec, lib)
    ensures var r := Read(PacketFor(m, host, addr, app, pid, seqNum), lib);
            (r.Msg? && r.msg.who.host == host) <==>
            (lib.stoi(host).NotANumber? || (lib.stoi(host).Number? && addr == host && !lib.stol(m.iteration).TooBig?))
  {
    var sent := Body(m.items);
    BodyMeaning(m.items, sent);
    if lib.stoi(host).TooBig? { BigHost(m, host, addr, app, pid, seqNum, sec, lib); }
    if lib.stoi(host).NotANumber? { RoundTrip(m, host, addr, app, pid, seqNum, sec, lib, sent); }
    if lib.stoi(host).Number? { NumericHost(m, host, addr, app, pid, seqNum, sec, lib, sent); }
  }

  predicate Contains(s: string, part: string)
  {
    exists i: nat | i <= |s| :: StartsAt(s, i, part)
  }

  /** validate_packet. */
  predicate ValidPacket(input: string)
  {
    Contains(input, "MF") && Contains(input, "|")
  }

  /** A packet is accepted exactly when an M followed by an F occurs in it somewhere,
      and somewhere a bar. */
  lemma ValidMeaning(input: string)
    ensures ValidPacket(input) <==>
            && (exists i | 0 <= i < |input| - 1 :: input[i] == 'M' && input[i + 1] == 'F')
            && '|' in input
  {
    forall i: nat | i <= |input| ensures StartsAt(input, i, "MF") <==>
      i < |input| - 1 && input[i] == 'M' && input[i + 1] == 'F' {
      if i < |input| - 1 { assert input[i..i + 2] == [input[i], input[i + 1]]; }
    }
    forall i: nat | i <= |input| ensures StartsAt(input, i, "|") <==> i < |input| && input[i] == '|' {
      if i < |input| { assert input[i..i + 1] == [input[i]]; }
    }
    if i :| 0 <= i < |input| - 1 && input[i] == 'M' && input[i + 1] == 'F' { assert StartsAt(input, i, "MF"); }
    if j :| 0 <= j < |input| && input[j] == '|' { assert StartsAt(input, j, "|"); }
    assert '|' in input <==> exists j :: 0 <= j < |input| && input[j] == '|';
    if Contains(input, "MF") {
      var i: nat :| i <= |input| && StartsAt(input, i, "MF");
      assert input[i] == 'M' && input[i + 1] == 'F';
    }
    if Contains(input, "|") {
      var j: nat :| j <= |input| && StartsAt(input, j, "|");
      assert input[j] == '|';
    }
  }

  /** The receiver accepts every packet of the sender. */
  lemma PacketValid(m: Message, host: string, addr: string, app: string, pid: nat, seqNum: nat)
    ensures ValidPacket(PacketFor(m, host, addr, app, pid, seqNum))
  {
    var s := PacketFor(m, host, addr, app, pid, seqNum);
    var f := Fields(m, host, addr, app, pid, seqNum);
    PacketCons(f, Body(m.items));
    var head, rest := f[0], PacketOf(f[1..], Body(m.items));
    assert head == "UDPMFMESSAGE" + Show(pid) && s == head + "|" + rest;
    assert StartsAt(s, 3, "MF");
    assert StartsAt(s, |head|, "|");
  }

  /** The packet check lets through a packet that the receiver never finishes. */
  lemma ValidStuckExample(lib: Libc)
    ensures ValidPacket("MF|") && Read("MF|", lib) == Stuck
  {
    assert StartsAt("MF|", 0, "MF") && StartsAt("MF|", 2, "|");
    var rest := "MF|"[1..][1..];
    assert Tokens("MF|") == ["MF"];
    ScanMeaning("MF", lib);
    assert HangsAt(["MF"], 0, 0, lib);
    ReadStuck("MF|", lib);
  }
}
