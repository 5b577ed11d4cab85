/** The possible-CPU count: a comma-separated list of numbers and ranges, highest plus one. */
module Cpus {
  import opened Bits

  datatype Range = Range(lo: u32, hi: u32)

  const BUFFER: nat := 256

  predicate IsSpace(c: char) {
    c == ' ' || ('\t' <= c <= '\r')
  }

  predicate IsDigit(c: char) {
    '0' <= c <= '9'
  }

  function TrimStart(s: string): string {
    if s != "" && IsSpace(s[0]) then TrimStart(s[1..]) else s
  }

  function TrimEnd(s: string): string {
    if s != "" && IsSpace(s[|s| - 1]) then TrimEnd(s[..|s| - 1]) else s
  }

  lemma {:induction false} StartTrimmed(s: string) returns (i: nat)
    ensures i <= |s| && TrimStart(s) == s[i..] && (i < |s| ==> !IsSpace(s[i]))
    ensures forall k | 0 <= k < i :: IsSpace(s[k])
  {
    i := 0;
    if s != "" && IsSpace(s[0]) {
      var j := StartTrimmed(s[1..]);
      i := j + 1;
      assert forall k | 1 <= k < i :: s[k] == s[1..][k - 1];
    }
  }

  lemma {:induction false} EndTrimmed(s: string) returns (j: nat)
    ensures j <= |s| && TrimEnd(s) == s[..j] && (j > 0 ==> !IsSpace(s[j - 1]))
    ensures forall k | j <= k < |s| :: IsSpace(s[k])
  {
    j := |s|;
    if s != "" && IsSpace(s[j - 1]) {
      j := EndTrimmed(s[..|s| - 1]);
      assert forall k | j <= k < |s| - 1 :: s[k] == s[..|s| - 1][k];
    }
  }

  /** Trimming takes white space off both ends, all of it and nothing else. */
  lemma Trimmed(s: string) returns (i: nat, j: nat)
    ensures i <= j <= |s| && TrimEnd(TrimStart(s)) == s[i..j]
    ensures forall k | 0 <= k < i || j <= k < |s| :: IsSpace(s[k])
    ensures i < j ==> !IsSpace(s[i]) && !IsSpace(s[j - 1])
  {
    hide IsSpace;
    i := StartTrimmed(s);
    var t := s[i..];
    var l := EndTrimmed(t);
    j := i + l;
    assert forall k | j <= k < |s| :: s[k] == t[k - i];
  }

  function DigitValue(c: char): nat {
    if IsDigit(c) then c as int - '0' as int else 0
  }

  /** The value of a string of digits, in any length. */
  function Value(s: string): nat {
    if s == "" then 0 else 10 * Value(s[..|s| - 1]) + DigitValue(s[|s| - 1])
  }

  predicate Plain(s: string) {
    s != "" && forall i | 0 <= i < |s| :: IsDigit(s[i])
  }

  function Unsigned(s: string): string {
    if s != "" && s[0] == '+' then s[1..] else s
  }

  /** A decimal number that fits 32 bits, with an optional plus sign. */
  function Number(s: string): Option<u32> {
    var digits := Unsigned(s);
    if !Plain(digits) || Value(digits) >= HALF then None else Some(Value(digits))
  }

  /** Where a character first occurs, or the length. */
  function Find(s: string, c: char): (i: nat)
    ensures i <= |s| && (forall k | 0 <= k < i :: s[k] != c) && (i < |s| ==> s[i] == c)
  {
    if s == "" || s[0] == c then 0 else 1 + Find(s[1..], c)
  }

  function Split(s: string, c: char): (parts: seq<string>)
    ensures parts != []
    decreases |s|
  {
    var i := Find(s, c);
    if i == |s| then [s] else [s[..i]] + Split(s[i + 1..], c)
  }

  /** The highest CPU of one part: the number, or the number after the first dash. */
  function Highest(part: string): Option<u32> {
    var i := Find(part, '-');
    if i == |part| then Number(part)
    else if Number(part[..i]).None? then None
    else Number(part[i + 1..])
  }

  lemma NumberRefuses(s: string, i: nat)
    requires s == "" || s == "+" || (i < |s| && !IsDigit(s[i]) && !(i == 0 && s[0] == '+'))
    ensures Number(s) == None
  {
    if s != "" && s != "+" { assert !IsDigit(Unsigned(s)[if s[0] == '+' then i - 1 else i]); }
  }

  /** A number, or two with a dash between them. */
  ghost predicate IsPart(part: string) {
    || Number(part).Some?
    || exists i :: 0 <= i < |part| && part[i] == '-' && Number(part[..i]).Some? && Number(part[i + 1..]).Some?
  }

  lemma DashAt(part: string, i: nat)
    requires i < |part| && part[i] == '-' && Number(part[..i]).Some?
    ensures Find(part, '-') == i
  {
    hide Number;
    var k := Find(part, '-');
    if k < i { NumberRefuses(part[..i], k); }
  }

  /** Whatever is not a part is refused; of a number that is it, and of two the second. */
  lemma PartAccepted(part: string)
    ensures Highest(part).Some? <==> IsPart(part)
    ensures Number(part).Some? ==> Highest(part) == Number(part)
    ensures forall i | 0 <= i < |part| && part[i] == '-' && Number(part[..i]).Some? :: Highest(part) == Number(part[i + 1..])
  {
    hide Number;
    forall i | 0 <= i < |part| && part[i] == '-' && Number(part[..i]).Some? ensures Find(part, '-') == i { DashAt(part, i); }
    if Number(part).Some? && Find(part, '-') < |part| { NumberRefuses(part, Find(part, '-')); }
  }

  function Max(a: u32, b: u32): u32 {
    if a < b then b else a
  }

  /** The highest CPU of all parts; one bad part spoils the list. */
  function HighestOf(parts: seq<string>): Option<u32> {
    if parts == [] then Some(0)
    else
      var front := HighestOf(parts[..|parts| - 1]);
      var last := Highest(parts[|parts| - 1]);
      if front.None? || last.None? then None else Some(Max(front.value, last.value))
  }

  lemma {:induction false} BadPart(parts: seq<string>, k: nat)
    requires k <= |parts| && HighestOf(parts[..k]).None?
    ensures HighestOf(parts).None?
    decreases |parts|
  {
    if k < |parts| {
      assert parts[..|parts| - 1][..k] == parts[..k];
      BadPart(parts[..|parts| - 1], k);
    } else {
      assert parts[..k] == parts;
    }
  }

  /** A list is accepted if and only if every part of it is, at whatever position. */
  lemma {:induction false} EveryPart(parts: seq<string>)
    ensures HighestOf(parts).Some? <==> forall k | 0 <= k < |parts| :: IsPart(parts[k])
  {
    hide Highest, IsPart, Max;
    if parts != [] {
      var n := |parts| - 1;
      EveryPart(parts[..n]);
      PartAccepted(parts[n]);
      assert forall k | 0 <= k < n :: parts[..n][k] == parts[k];
      assert (forall k | 0 <= k < |parts| :: IsPart(parts[k])) ==> forall k | 0 <= k < n :: IsPart(parts[..n][k]);
    }
  }

  /** This is the highest CPU of some part, and of no part is it higher. */
  predicate Tops(parts: seq<string>, h: u32) {
    && (forall k | 0 <= k < |parts| :: Highest(parts[k]).Some? && Highest(parts[k]).value <= h)
    && exists k :: 0 <= k < |parts| && Highest(parts[k]) == Some(h)
  }

  lemma {:induction false} HighestTops(parts: seq<string>)
    requires parts != [] && HighestOf(parts).Some?
    ensures Tops(parts, HighestOf(parts).value)
  {
    hide Highest;
    var n := |parts| - 1;
    var h := HighestOf(parts).value;
    assert forall k | 0 <= k < n :: parts[..n][k] == parts[k];
    if n > 0 {
      HighestTops(parts[..n]);
      var k :| 0 <= k < n && Highest(parts[..n][k]) == HighestOf(parts[..n]);
      assert Highest(parts[k]) == Some(h) || Highest(parts[n]) == Some(h);
    } else {
      assert parts[..n] == [] && Highest(parts[0]) == Some(h);
    }
  }

  /** The count for a file's contents, of which at most a buffer's worth has been read. */
  method Possible(contents: string, n: nat) returns (count: Option<u32>)
    requires n <= |contents| && n <= BUFFER
    ensures
      var raw := TrimEnd(TrimStart(contents[..n]));
      var highest := HighestOf(Split(raw, ','));
      count == if raw == "" || highest.None? || highest.value == HALF - 1 then None else Some(highest.value + 1)
    ensures
      var parts := Split(TrimEnd(TrimStart(contents[..n])), ',');
      count.Some? ==> forall k | 0 <= k < |parts| :: IsPart(parts[k])
  {
    hide Highest, Split, TrimEnd, TrimStart, IsPart, Plain, Number, Value;
    var raw := TrimEnd(TrimStart(contents[..n]));
    if raw == "" { return None; }
    var parts, max, i := Split(raw, ','), 0, 0;
    while i < |parts|
      invariant i <= |parts| && HighestOf(parts[..i]) == Some(max)
    {
      assert parts[..i + 1][..i] == parts[..i];
      var hi := Highest(parts[i]);
      if hi.None? {
        BadPart(parts, i + 1);
        return None;
      }
      max := Max(max, hi.value);
      i := i + 1;
    }
    assert parts[..i] == parts;
    count := if max == HALF - 1 then None else Some(max + 1);
    EveryPart(parts);
  }

  function Digit(d: nat): char
    requires d < 10
  {
    '0' + d as char
  }

  function Decimal(n: nat): string {
    if n < 10 then [Digit(n)] else Decimal(n / 10) + [Digit(n % 10)]
  }

  lemma {:induction false} DecimalValue(n: nat)
    ensures Plain(Decimal(n)) && Value(Decimal(n)) == n
  {
    if n >= 10 {
      DecimalValue(n / 10);
      assert Decimal(n)[..|Decimal(n)| - 1] == Decimal(n / 10);
    } else {
      assert Decimal(n)[..0] == "";
      assert Value("") == 0;
    }
  }

  /** Every decimal that fits is accepted, with a plus sign or without one; any other is refused. */
  lemma NumberAccepts(n: nat)
    ensures Number(Decimal(n)) == if n < 0x1_0000_0000 then Some(n) else None
    ensures Number("+" + Decimal(n)) == if n < 0x1_0000_0000 then Some(n) else None
  {
    DecimalValue(n);
    assert ("+" + Decimal(n))[1..] == Decimal(n);
    assert IsDigit(Decimal(n)[0]);
  }

  lemma NumberOf(n: u32)
    ensures Number(Decimal(n)) == Some(n)
  {
    DecimalValue(n);
  }

  /** Zeros in front change nothing. */
  lemma {:induction false} LeadingZero(s: string)
    ensures Value("0" + s) == Value(s)
  {
    if s != "" {
      LeadingZero(s[..|s| - 1]);
      assert ("0" + s)[..|s|] == "0" + s[..|s| - 1];
    } else {
      assert "0" + s == "0" && "0"[..0] == "";
    }
  }

  /** How the kernel prints a range. */
  function Shown(r: Range): string {
    if r.lo == r.hi then Decimal(r.lo) else Decimal(r.lo) + "-" + Decimal(r.hi)
  }

  function Listed(rs: seq<Range>): string
    requires rs != []
  {
    if |rs| == 1 then Shown(rs[0]) else Shown(rs[0]) + "," + Listed(rs[1..])
  }

  lemma FindAfter(s: string, c: char, t: string)
    requires forall i | 0 <= i < |s| :: s[i] != c
    ensures Find(s + [c] + t, c) == |s| && Find(s, c) == |s|
  {
    var u := s + [c] + t;
    assert u[|s|] == c && forall k | 0 <= k < |s| :: u[k] == s[k];
  }

  /** No separator and no white space. */
  predicate Clean(s: string) {
    s != "" && forall i | 0 <= i < |s| :: s[i] != ',' && !IsSpace(s[i])
  }

  lemma DecimalClean(n: nat)
    ensures Clean(Decimal(n)) && forall i | 0 <= i < |Decimal(n)| :: Decimal(n)[i] != '-'
  {
    DecimalValue(n);
  }

  lemma ShownHighest(r: Range)
    ensures Highest(Shown(r)) == Some(r.hi) && Clean(Shown(r))
  {
    NumberOf(r.lo);
    NumberOf(r.hi);
    DecimalClean(r.lo);
    DecimalClean(r.hi);
    hide Find, Number, Decimal, IsSpace;
    FindAfter(Decimal(r.lo), '-', Decimal(r.hi));
    var s := Decimal(r.lo) + "-" + Decimal(r.hi);
    assert s[..|Decimal(r.lo)|] == Decimal(r.lo) && s[|Decimal(r.lo)| + 1..] == Decimal(r.hi);
    assert Clean(s) by { assert !IsSpace('-') by { NotSpace('-'); } }
  }

  lemma NotSpace(c: char)
    requires '!' <= c
    ensures !IsSpace(c)
  {
  }

  lemma SplitCons(first: string, rest: string)
    requires forall i | 0 <= i < |first| :: first[i] != ','
    ensures Split(first, ',') == [first] && Split(first + "," + rest, ',') == [first] + Split(rest, ',')
  {
    FindAfter(first, ',', rest);
    hide Find;
    var s := first + "," + rest;
    assert s[..|first|] == first && s[|first| + 1..] == rest;
  }

  function ShownAll(rs: seq<Range>): (parts: seq<string>)
    ensures |parts| == |rs| && forall i | 0 <= i < |rs| :: parts[i] == Shown(rs[i])
  {
    if rs == [] then [] else [Shown(rs[0])] + ShownAll(rs[1..])
  }

  /** Splitting a list gives back its ranges. */
  lemma {:induction false} SplitListed(rs: seq<Range>)
    requires rs != []
    ensures Split(Listed(rs), ',') == ShownAll(rs)
    ensures Listed(rs) != "" && forall i | 0 <= i < |Listed(rs)| :: !IsSpace(Listed(rs)[i])
    decreases |rs|
  {
    ShownHighest(rs[0]);
    hide Shown, Split;
    if |rs| == 1 {
      SplitCons(Shown(rs[0]), "");
    } else {
      SplitListed(rs[1..]);
      SplitCons(Shown(rs[0]), Listed(rs[1..]));
    }
  }

  function Join(parts: seq<string>, c: char): string
    requires parts != []
  {
    if |parts| == 1 then parts[0] else parts[0] + [c] + Join(parts[1..], c)
  }

  /** Any string is its parts with the separator between them, and no part holds one. */
  lemma {:induction false} SplitJoins(s: string, c: char)
    ensures Join(Split(s, c), c) == s
    ensures forall k, i | 0 <= k < |Split(s, c)| && 0 <= i < |Split(s, c)[k]| :: Split(s, c)[k][i] != c
    decreases |s|
  {
    var i := Find(s, c);
    hide Find;
    if i < |s| {
      SplitJoins(s[i + 1..], c);
      assert s == s[..i] + [c] + s[i + 1..];
      assert Split(s, c) == [s[..i]] + Split(s[i + 1..], c);
      assert Split(s, c)[1..] == Split(s[i + 1..], c);
    }
  }

  predicate IsHighest(rs: seq<Range>, h: u32) {
    (forall i | 0 <= i < |rs| :: rs[i].hi <= h) && (exists i :: 0 <= i < |rs| && rs[i].hi == h)
  }

  lemma HighestUnique(rs: seq<Range>, g: u32, h: u32)
    requires IsHighest(rs, g) && IsHighest(rs, h)
    ensures g == h
  {
  }

  lemma HighestOneMore(rs: seq<Range>, n: nat, g: u32)
    requires |rs| == n + 1 && if n == 0 then g == 0 else IsHighest(rs[..n], g)
    ensures IsHighest(rs, Max(g, rs[n].hi))
  {
    assert forall i | 0 <= i < n :: rs[..n][i] == rs[i];
    if n > 0 {
      var j :| 0 <= j < n && rs[..n][j].hi == g;
      assert rs[j].hi == g;
    }
  }

  lemma {:induction false} HighestListed(rs: seq<Range>, parts: seq<string>)
    requires |parts| == |rs| && forall i | 0 <= i < |rs| :: parts[i] == Shown(rs[i])
    ensures HighestOf(parts).Some?
    ensures if rs == [] then HighestOf(parts) == Some(0) else IsHighest(rs, HighestOf(parts).value)
    decreases |rs|
  {
    hide Highest, Shown, Clean, IsHighest, Max;
    if rs != [] {
      var n := |rs| - 1;
      HighestListed(rs[..n], parts[..n]);
      ShownHighest(rs[n]);
      HighestOneMore(rs, n, HighestOf(parts[..n]).value);
    }
  }

  predicate Lists(rs: seq<Range>, c: u32) {
    exists i :: 0 <= i < |rs| && rs[i].lo <= c <= rs[i].hi
  }

  lemma TrimNewline(s: string)
    requires s != "" && forall i | 0 <= i < |s| :: !IsSpace(s[i])
    ensures TrimEnd(TrimStart(s)) == s && TrimEnd(TrimStart(s + "\n")) == s
  {
    assert (s + "\n")[..|s|] == s;
  }

  /** What is read of a printed list, whole, with or without the newline. */
  lemma ListedRead(rs: seq<Range>, newline: bool, contents: string)
    requires rs != [] && contents == Listed(rs) + if newline then "\n" else ""
    ensures TrimEnd(TrimStart(contents[..|contents|])) == Listed(rs) != ""
    ensures HighestOf(Split(Listed(rs), ',')).Some? && IsHighest(rs, HighestOf(Split(Listed(rs), ',')).value)
  {
    hide TrimStart, TrimEnd, IsSpace, Split, Highest, HighestOf, Shown, Listed, IsHighest;
    SplitListed(rs);
    TrimNewline(Listed(rs));
    HighestListed(rs, ShownAll(rs));
    assert contents[..|contents|] == contents;
    if !newline { assert contents == Listed(rs); }
  }

  lemma ListedBelow(rs: seq<Range>, h: u32)
    requires IsHighest(rs, h) && forall i | 0 <= i < |rs| :: rs[i].lo <= rs[i].hi < HALF - 1
    ensures h < HALF - 1 && forall c: u32 | Lists(rs, c) :: c <= h
  {
  }

  /** What the kernel lists, the crate sizes its regions for: every listed CPU has a slot, and no slot is
      beyond the highest one. */
  method EveryCpuHasASlot(rs: seq<Range>, newline: bool) returns (count: Option<u32>)
    requires rs != [] && forall i | 0 <= i < |rs| :: rs[i].lo <= rs[i].hi < HALF - 1
    requires |Listed(rs)| + (if newline then 1 else 0) <= BUFFER
    ensures count.Some? && count.value > 0 && IsHighest(rs, count.value - 1)
    ensures forall c: u32 | Lists(rs, c) :: c < count.value
  {
    var contents := Listed(rs) + if newline then "\n" else "";
    hide *;
    count := Possible(contents, |contents|);
    ListedRead(rs, newline, contents);
    ListedBelow(rs, HighestOf(Split(Listed(rs), ',')).value);
  }
}
