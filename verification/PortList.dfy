/** app/lib/util/format.dart: the port-list parser, and the printer of app/lib/core/models.dart it undoes. */
module PortList {
  import opened Common
  import opened Decimal
  import opened Paths
  import opened Sorting

  // ---- splitting ----

  /** White space for the regular expression. */
  predicate IsBlank(c: char) {
    (IsSpace(c) && c != '\U{0085}') || c == '\U{FEFF}'
  }

  predicate IsSep(c: char) {
    c == ',' || IsBlank(c)
  }

  /** The length of the leading run without separators. */
  function Run(s: string): (n: nat)
    ensures n <= |s| && (forall i :: 0 <= i < n ==> !IsSep(s[i])) && (n < |s| ==> IsSep(s[n]))
  {
    if s == "" || IsSep(s[0]) then 0 else 1 + Run(s[1..])
  }

  /** The non-empty parts between separators. */
  function Tokens(s: string): seq<string> {
    if s == "" then []
    else if IsSep(s[0]) then Tokens(s[1..])
    else [s[..Run(s)]] + Tokens(s[Run(s)..])
  }

  /** Up to the first dash, and after the last one. */
  function BeforeDash(s: string): string {
    if s == "" || s[0] == '-' then "" else [s[0]] + BeforeDash(s[1..])
  }

  function AfterDash(s: string): string {
    if s == "" || s[|s| - 1] == '-' then "" else AfterDash(s[..|s| - 1]) + [s[|s| - 1]]
  }

  // ---- int.tryParse ----

  predicate IsTrimmed(c: char) {
    IsSpace(c) || c == '\U{FEFF}'
  }

  function TrimEnds(s: string): string {
    if s != "" && IsTrimmed(s[0]) then TrimEnds(s[1..])
    else if s != "" && IsTrimmed(s[|s| - 1]) then TrimEnds(s[..|s| - 1])
    else s
  }

  function HexDigit(c: char): Option<int> {
    if '0' <= c <= '9' then Some(c as int - '0' as int)
    else if 'a' <= c <= 'f' then Some(c as int - 'a' as int + 10)
    else if 'A' <= c <= 'F' then Some(c as int - 'A' as int + 10)
    else None
  }

  function HexValue(s: string): int {
    if s == "" then 0
    else
      var d := HexDigit(s[|s| - 1]);
      16 * HexValue(s[..|s| - 1]) + if d.Some? then d.value else 0
  }

  predicate AllDigits(s: string) {
    s != "" && forall i :: 0 <= i < |s| ==> '0' <= s[i] <= '9'
  }

  predicate AllHex(s: string) {
    s != "" && forall i :: 0 <= i < |s| ==> HexDigit(s[i]).Some?
  }

  /** Decimal, or hexadecimal after 0x, with an optional plus sign. No dash is ever left in what is parsed. */
  function TryParse(text: string): Option<int> {
    var t := TrimEnds(text);
    var s := if t != "" && t[0] == '+' then t[1..] else t;
    if |s| > 2 && s[0] == '0' && (s[1] == 'x' || s[1] == 'X') then
      if AllHex(s[2..]) then Some(HexValue(s[2..])) else None
    else if AllDigits(s) then Some(Value(s))
    else None
  }

  // ---- one part ----

  const SPAN := 1024

  /** The ports a part stands for; none when it is refused. */
  function Bounds(part: string): Option<(int, int)> {
    var a := TryParse(BeforeDash(part));
    var b := if '-' in part then TryParse(AfterDash(part)) else a;
    if a.None? || b.None? || a.value < 1 || b.value > 65535 || b.value < a.value || b.value - a.value > SPAN then None
    else Some((a.value, b.value))
  }

  predicate In(part: string, p: int) {
    Bounds(part).Some? && Bounds(part).value.0 <= p <= Bounds(part).value.1
  }

  predicate Covers(parts: seq<string>, p: int) {
    exists i :: 0 <= i < |parts| && In(parts[i], p)
  }

  /** Some text is refused exactly when one of its parts is; the error names the first such part. */
  predicate Accepted(s: string) {
    forall i :: 0 <= i < |Tokens(s)| ==> Bounds(Tokens(s)[i]).Some?
  }

  /** The ports of a text: each one once, in increasing order, within range, exactly those of its ranges. */
  ghost predicate Parses(s: string, ports: seq<int>) {
    && Accepted(s)
    && StrictlyIncreasing(ports)
    && (forall p :: p in ports ==> 1 <= p <= 65535)
    && forall p :: p in ports <==> Covers(Tokens(s), p)
  }

  method AddRange(given: seq<int>, a: int, b: int) returns (out: seq<int>)
    requires Distinct(given) && a <= b
    ensures Distinct(out) && forall p :: p in out <==> p in given || a <= p <= b
  {
    out := given;
    var p := a;
    while p <= b
      invariant a <= p <= b + 1 && Distinct(out)
      invariant forall q :: q in out <==> q in given || a <= q < p
    {
      if p !in out { out := out + [p]; }
      p := p + 1;
    }
  }

  lemma NoneCovered()
    ensures forall p :: !Covers([], p)
  {
  }

  lemma CoversNext(parts: seq<string>, i: nat)
    requires i < |parts|
    ensures forall p :: Covers(parts[..i + 1], p) <==> Covers(parts[..i], p) || In(parts[i], p)
  {
    hide In;
    var front, longer := parts[..i], parts[..i + 1];
    assert longer == front + [parts[i]];
    forall p ensures Covers(longer, p) <==> Covers(front, p) || In(parts[i], p) {
      if Covers(front, p) {
        var j :| 0 <= j < |front| && In(front[j], p);
        assert longer[j] == front[j];
      }
      if In(parts[i], p) { assert In(longer[i], p); }
    }
  }

  method ParsePorts(s: string) returns (r: Result<seq<int>, string>)
    ensures r.Ok? ==> Parses(s, r.value)
    ensures r.Ok? <==> Accepted(s)
    ensures r.Err? ==> exists k :: 0 <= k < |Tokens(s)| && Tokens(s)[k] == r.error && Bounds(r.error).None?
                         && forall j :: 0 <= j < k ==> Bounds(Tokens(s)[j]).Some?
  {
    hide Tokens, TryParse, BeforeDash, AfterDash, Sort, Covers;
    var parts := Tokens(s);
    NoneCovered();
    assert parts[..0] == [];
    var out: seq<int> := [];
    for i := 0 to |parts|
      invariant forall j :: 0 <= j < i ==> Bounds(parts[j]).Some?
      invariant Distinct(out) && forall p :: p in out <==> Covers(parts[..i], p)
      invariant forall p :: p in out ==> 1 <= p <= 65535
    {
      var part := parts[i];
      var a := TryParse(BeforeDash(part));
      var b := a;
      if '-' in part { b := TryParse(AfterDash(part)); }
      if a.None? || b.None? || a.value < 1 || b.value > 65535 || b.value < a.value || b.value - a.value > SPAN {
        return Err(part);
      }
      assert Bounds(part) == Some((a.value, b.value));
      assert forall p :: In(part, p) <==> a.value <= p <= b.value;
      ghost var before := out;
      out := AddRange(out, a.value, b.value);
      CoversNext(parts, i);
      forall p ensures p in out <==> Covers(parts[..i + 1], p) {
        assert Covers(parts[..i + 1], p) <==> Covers(parts[..i], p) || In(part, p);
        assert p in out <==> p in before || a.value <= p <= b.value;
      }
    }
    assert parts[..|parts|] == parts;
    SortKeeps(out);
    SortDistinct(out);
    r := Ok(Sort(out));
  }

  // ---- digits, runs and dashes ----

  lemma DigitsAreNoSep(c: char)
    requires '0' <= c <= '9'
    ensures !IsSep(c) && !IsTrimmed(c) && c != '-' && c != '+' && c != 'x' && c != 'X'
  {
  }

  lemma {:induction false} RunOf(d: string, rest: string)
    requires (forall i :: 0 <= i < |d| ==> !IsSep(d[i])) && (rest == "" || IsSep(rest[0]))
    ensures Run(d + rest) == |d|
  {
    if d == "" {
      assert d + rest == rest;
    } else {
      assert (d + rest)[1..] == d[1..] + rest;
      RunOf(d[1..], rest);
    }
  }

  lemma {:induction false} NoDash(s: string)
    requires '-' !in s
    ensures BeforeDash(s) == s
  {
    if s != "" {
      NoDash(s[1..]);
      assert s == [s[0]] + s[1..];
    }
  }

  /** Plain digits are read as they are. */
  lemma DigitsAreRead(s: string)
    requires AllDigits(s)
    ensures TryParse(s) == Some(Value(s)) && '-' !in s
  {
    hide Value;
    DigitsAreNoSep(s[0]);
    DigitsAreNoSep(s[|s| - 1]);
    assert TrimEnds(s) == s;
    if |s| > 1 { DigitsAreNoSep(s[1]); }
    forall i | 0 <= i < |s| ensures s[i] != '-' { DigitsAreNoSep(s[i]); }
  }

  lemma BoundsOfDec(p: int)
    requires 1 <= p <= 65535
    ensures Bounds(Dec(p)) == Some((p, p))
  {
    hide Dec, TryParse, Value;
    DigitsAreRead(Dec(p));
    NoDash(Dec(p));
    ValueOfDec(p);
  }

  lemma TokensHead(d: string, rest: string)
    requires d != "" && (forall i :: 0 <= i < |d| ==> !IsSep(d[i])) && (rest == "" || IsSep(rest[0]))
    ensures Tokens(d + rest) == [d] + Tokens(rest)
  {
    RunOf(d, rest);
    assert (d + rest)[..|d|] == d && (d + rest)[|d|..] == rest;
  }

  lemma TokensSkip(rest: string)
    ensures Tokens(", " + rest) == Tokens(rest)
  {
  }

  // ---- what a text says, by its parts ----

  lemma SepSkipped(s: string)
    requires s != "" && IsSep(s[0])
    ensures Tokens(s) == Tokens(s[1..])
  {
  }

  lemma RunIsPositive(s: string)
    requires s != "" && !IsSep(s[0])
    ensures 0 < Run(s) <= |s|
  {
  }

  lemma RunSplits(s: string)
    requires s != "" && !IsSep(s[0])
    ensures var d, rest := s[..Run(s)], s[Run(s)..];
      d != "" && s == d + rest && (forall i :: 0 <= i < |d| ==> !IsSep(d[i])) && (rest == "" || IsSep(rest[0]))
  {
    hide IsSep;
    RunIsPositive(s);
    var d, rest := s[..Run(s)], s[Run(s)..];
    assert forall i :: 0 <= i < |d| ==> d[i] == s[i];
    assert rest != "" ==> rest[0] == s[Run(s)];
  }

  lemma RunThenRest(s: string)
    requires s != "" && !IsSep(s[0])
    ensures var d, rest := s[..Run(s)], s[Run(s)..];
      && d != "" && s == d + rest && (forall i :: 0 <= i < |d| ==> !IsSep(d[i])) && (rest == "" || IsSep(rest[0]))
      && Tokens(s) == [d] + Tokens(rest)
  {
    hide IsSep, Tokens, Run;
    RunSplits(s);
    TokensHead(s[..Run(s)], s[Run(s)..]);
  }

  /** A text is split at its separators; with TokensJoin this determines the parts of every text. */
  lemma TokensOne(s: string)
    requires forall i :: 0 <= i < |s| ==> !IsSep(s[i])
    ensures Tokens(s) == if s == "" then [] else [s]
  {
    if s != "" {
      TokensHead(s, "");
      assert s + "" == s;
    }
  }

  /** The parts on either side of a separator are parts for themselves. */
  lemma {:induction false} TokensJoin(a: string, c: char, b: string)
    requires IsSep(c)
    ensures Tokens(a + [c] + b) == Tokens(a) + Tokens(b)
    decreases |a|
  {
    hide IsSep, Tokens, Run;
    var s := a + [c] + b;
    if a == "" {
      TokensOne("");
      assert s == [c] + b && s[1..] == b;
      SepSkipped(s);
    } else if IsSep(a[0]) {
      assert s[1..] == a[1..] + [c] + b;
      SepSkipped(s);
      SepSkipped(a);
      TokensJoin(a[1..], c, b);
    } else {
      RunThenRest(a);
      var d, rest := a[..Run(a)], a[Run(a)..];
      assert s == d + (rest + [c] + b);
      TokensHead(d, rest + [c] + b);
      TokensJoin(rest, c, b);
    }
  }

  lemma {:induction false} DashFirst(a: string, rest: string)
    requires '-' !in a
    ensures BeforeDash(a + "-" + rest) == a
  {
    if a == "" {
      assert a + "-" + rest == "-" + rest;
    } else {
      assert (a + "-" + rest)[1..] == a[1..] + "-" + rest;
      DashFirst(a[1..], rest);
      assert [a[0]] + a[1..] == a;
    }
  }

  lemma {:induction false} DashLast(rest: string, b: string)
    requires '-' !in b
    ensures AfterDash(rest + "-" + b) == b
  {
    var s := rest + "-" + b;
    if b == "" {
      assert s[|s| - 1] == '-';
    } else {
      assert s[|s| - 1] == b[|b| - 1] && s[..|s| - 1] == rest + "-" + b[..|b| - 1];
      DashLast(rest, b[..|b| - 1]);
      assert b[..|b| - 1] + [b[|b| - 1]] == b;
    }
  }

  const HEX: string := "0123456789abcdefABCDEF"

  lemma InHex(c: char)
    ensures c in HEX <==> '0' <= c <= '9' || 'a' <= c <= 'f' || 'A' <= c <= 'F'
  {
    if '0' <= c <= '9' { assert HEX[c as int - '0' as int] == c; }
    if 'a' <= c <= 'f' { assert HEX[c as int - 'a' as int + 10] == c; }
    if 'A' <= c <= 'F' { assert HEX[c as int - 'A' as int + 16] == c; }
  }

  /** The digits, and what they stand for: capitals stand for the same as small letters. */
  lemma HexDigitIs(c: char)
    ensures HexDigit(c).Some? <==> c in HEX
    ensures HexDigit(c).Some? ==>
              var v := HexDigit(c).value; 0 <= v < 16 && (HEX[v] == c || (v >= 10 && HEX[v + 6] == c))
  {
    InHex(c);
  }

  predicate AllTrimmed(s: string) {
    forall i :: 0 <= i < |s| ==> IsTrimmed(s[i])
  }

  /** White space around a number is dropped. */
  lemma {:induction false} TrimEndsIs(l: string, s: string, r: string)
    requires AllTrimmed(l) && AllTrimmed(r)
    requires s != "" && !IsTrimmed(s[0]) && !IsTrimmed(s[|s| - 1])
    ensures TrimEnds(l + s + r) == s
    decreases |l| + |r|
  {
    hide IsTrimmed;
    var t := l + s + r;
    if l != "" {
      assert t[0] == l[0] && t[1..] == l[1..] + s + r;
      TrimEndsIs(l[1..], s, r);
    } else if r != "" {
      assert t[0] == s[0] && t[|t| - 1] == r[|r| - 1] && t[..|t| - 1] == l + s + r[..|r| - 1];
      TrimEndsIs(l, s, r[..|r| - 1]);
    } else {
      assert t == s;
    }
  }

  /** It is what separates parts, but for the comma, and the control character for the next line. */
  lemma TrimmedOrSep(c: char)
    ensures IsTrimmed(c) <==> (IsSep(c) && c != ',') || c == '\U{0085}'
    ensures !IsSep('\U{0085}')
  {
  }

  lemma ZeroIsNoBlank()
    ensures !IsTrimmed('0') && !IsTrimmed('+')
  {
  }

  lemma HexSnoc(s: string, c: char)
    ensures HexDigit(c).Some? ==> HexValue(s + [c]) == 16 * HexValue(s) + HexDigit(c).value
    ensures HexValue("") == 0
  {
    assert (s + [c])[..|s|] == s;
  }

  /** After 0x only hexadecimal digits are read, as the number they are. */
  lemma HexReads(s: string, c: char)
    requires !IsTrimmed(c)
    ensures TryParse("0x" + s + [c]) ==
            if forall d :: d in s + [c] ==> d in HEX then Some(HexValue(s + [c])) else None
    ensures HexDigit(c).Some? ==> HexValue(s + [c]) == 16 * HexValue(s) + HexDigit(c).value
    ensures HexValue("") == 0
  {
    var t := "0x" + s + [c];
    hide IsTrimmed, HexValue;
    ZeroIsNoBlank();
    assert TrimEnds(t) == t;
    assert t[2..] == s + [c];
    forall d ensures d in HEX <==> HexDigit(d).Some? { HexDigitIs(d); }
    HexSnoc(s, c);
  }

  /**
    A range reads from its first number to its last, whatever stands between two further dashes: it is accepted when
    the ports are in range, in order and at most 1024 apart.
   */
  lemma RangeReads(a: nat, mid: string, b: nat)
    requires mid == "-" || (|mid| >= 2 && mid[0] == '-' && mid[|mid| - 1] == '-')
    ensures Bounds(Dec(a) + mid + Dec(b)) ==
            if 1 <= a <= b <= 65535 && b - a <= 1024 then Some((a, b)) else None
    ensures Bounds(Dec(a)) == if 1 <= a <= 65535 then Some((a, a)) else None
  {
    hide Dec, TryParse, Value, BeforeDash, AfterDash;
    DigitsAreRead(Dec(a));
    DigitsAreRead(Dec(b));
    ValueOfDec(a);
    ValueOfDec(b);
    NoDash(Dec(a));
    var s := Dec(a) + mid + Dec(b);
    assert s[|Dec(a)|] == '-';
    assert s == Dec(a) + "-" + (mid[1..] + Dec(b)) && s == (Dec(a) + mid[..|mid| - 1]) + "-" + Dec(b);
    DashFirst(Dec(a), mid[1..] + Dec(b));
    DashLast(Dec(a) + mid[..|mid| - 1], Dec(b));
  }

  lemma EmptyIsNoNumber()
    ensures TryParse("") == None
  {
  }

  /** A range without its first or its last number is refused. */
  lemma OpenRangeRefused(a: string)
    ensures Bounds("-" + a) == None
    ensures '-' !in a ==> Bounds(a + "-") == None
  {
    hide TryParse;
    EmptyIsNoNumber();
    assert BeforeDash("-" + a) == "";
    if '-' !in a {
      DashLast(a, "");
      assert a + "-" + "" == a + "-" && (a + "-")[|a|] == '-';
    }
  }

  // ---- the printer, and reading back what it printed ----

  /** ports.join(', '). */
  function PortText(ports: seq<nat>): string {
    if ports == [] then ""
    else if |ports| == 1 then Dec(ports[0])
    else Dec(ports[0]) + ", " + PortText(ports[1..])
  }

  function Decs(ports: seq<nat>): seq<string> {
    if ports == [] then [] else [Dec(ports[0])] + Decs(ports[1..])
  }

  lemma {:induction false} DecsAt(ports: seq<nat>)
    ensures |Decs(ports)| == |ports| && forall i :: 0 <= i < |ports| ==> Decs(ports)[i] == Dec(ports[i])
  {
    if ports != [] { DecsAt(ports[1..]); }
  }

  lemma {:induction false} TokensOfText(ports: seq<nat>)
    ensures Tokens(PortText(ports)) == Decs(ports)
  {
    if ports == [] {
      assert Tokens("") == [];
    } else {
      hide Tokens, Dec;
      var d := Dec(ports[0]);
      forall i | 0 <= i < |d| ensures !IsSep(d[i]) { DigitsAreNoSep(d[i]); }
      var tail := if |ports| == 1 then "" else ", " + PortText(ports[1..]);
      assert PortText(ports) == d + tail;
      TokensHead(d, tail);
      TokensOfText(ports[1..]);
      if |ports| > 1 { TokensSkip(PortText(ports[1..])); } else { assert ports[1..] == []; }
    }
  }

  /** Each part of a printed list is accepted as its own port. */
  lemma PartsOfText(ports: seq<nat>)
    requires forall p :: p in ports ==> 1 <= p <= 65535
    ensures Accepted(PortText(ports))
    ensures forall p :: Covers(Tokens(PortText(ports)), p) <==> p in ports
  {
    hide Tokens, Bounds, PortText, Dec;
    TokensOfText(ports);
    DecsAt(ports);
    var parts := Tokens(PortText(ports));
    forall i | 0 <= i < |ports| ensures Bounds(parts[i]) == Some((ports[i], ports[i])) {
      assert ports[i] in ports;
      BoundsOfDec(ports[i]);
    }
    forall p ensures Covers(parts, p) <==> p in ports {
      if p in ports {
        var i :| 0 <= i < |ports| && ports[i] == p;
        assert In(parts[i], p);
      }
    }
  }

  /**
    Parsing what the printer wrote: any list of ports is accepted and comes back sorted and without repetitions,
    so it comes back unchanged exactly when it was strictly increasing.
   */
  lemma ParseUndoesPrint(ports: seq<nat>, back: seq<int>)
    requires forall p :: p in ports ==> 1 <= p <= 65535
    ensures Accepted(PortText(ports))
    ensures Parses(PortText(ports), back) ==>
              && (forall p :: p in back <==> p in ports)
              && (back == ports <==> StrictlyIncreasing(ports))
  {
    hide Tokens, Accepted, Covers, PortText;
    PartsOfText(ports);
    if Parses(PortText(ports), back) && StrictlyIncreasing(ports) { IncreasingUnique(back, ports); }
  }
}
