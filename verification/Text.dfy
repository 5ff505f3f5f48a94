// Decimal text as `printf` writes it and `atoi` reads it, and fields split at a
// delimiter.

module Text {

  function Digit(d: nat): char
    requires d < 10
  {
    ('0' as int + d) as char
  }

  predicate IsDigit(c: char) { '0' <= c <= '9' }

  function DigitValue(c: char): nat
    requires IsDigit(c)
  {
    c as int - '0' as int
  }

  function DecNat(n: nat): string
  {
    if n < 10 then [Digit(n)] else DecNat(n / 10) + [Digit(n % 10)]
  }

  // "%d"
  function Dec(n: int): string
  {
    if n < 0 then "-" + DecNat(-n) else DecNat(n)
  }

  // "%d,%d,...,%d"
  function DecList(ns: seq<int>): string
  {
    if |ns| == 0 then ""
    else if |ns| == 1 then Dec(ns[0])
    else Dec(ns[0]) + "," + DecList(ns[1..])
  }

  predicate AllDigits(s: string) { forall i :: 0 <= i < |s| ==> IsDigit(s[i]) }

  function Value(s: string): nat
    requires AllDigits(s)
  {
    if s == "" then 0 else 10 * Value(s[..|s| - 1]) + DigitValue(s[|s| - 1])
  }

  lemma {:induction false} DecNatReads(n: nat)
    ensures AllDigits(DecNat(n)) && |DecNat(n)| > 0 && Value(DecNat(n)) == n
  {
    if n >= 10 {
      DecNatReads(n / 10);
      assert DecNat(n)[..|DecNat(n)| - 1] == DecNat(n / 10);
    } else {
      assert DecNat(n)[..0] == "";
    }
  }

  // atoi: blanks, a sign, then digits up to the first other character.
  function Atoi(s: string): int
  {
    if s != "" && s[0] in " \t\n\r\U{0B}\U{0C}" then Atoi(s[1..])
    else if s != "" && s[0] == '-' then -(Value(LeadingDigits(s[1..])) as int)
    else if s != "" && s[0] == '+' then Value(LeadingDigits(s[1..]))
    else Value(LeadingDigits(s))
  }

  function LeadingDigits(s: string): (d: string)
    ensures AllDigits(d)
    ensures AllDigits(s) ==> d == s
  {
    if s == "" || !IsDigit(s[0]) then "" else [s[0]] + LeadingDigits(s[1..])
  }

  lemma AtoiReadsDec(n: nat)
    ensures Atoi(Dec(n)) == n
  {
    DecNatReads(n);
  }

  // Position of the first delimiter, or the length.
  function Find(s: string, delim: char): (k: nat)
    ensures k <= |s| && (k < |s| ==> s[k] == delim)
    ensures forall j :: 0 <= j < k ==> s[j] != delim
  {
    if s == "" || s[0] == delim then 0 else 1 + Find(s[1..], delim)
  }

  // At most `limit` fields; what follows the last of them is dropped.
  function Fields(s: string, limit: nat, delim: char): seq<string>
    decreases limit
  {
    if limit == 0 then []
    else
      var k := Find(s, delim);
      if k == |s| then [s] else [s[..k]] + Fields(s[k + 1..], limit - 1, delim)
  }

  lemma FindAt(a: string, delim: char, b: string)
    requires delim !in a
    ensures Find(a + [delim] + b, delim) == |a|
    ensures Find(a, delim) == |a|
  {
    var s := a + [delim] + b;
    assert s[|a|] == delim;
    assert forall j :: 0 <= j < |a| ==> s[j] == a[j];
  }

  lemma FieldsCons(a: string, limit: nat, delim: char, b: string)
    requires delim !in a && limit > 0
    ensures Fields(a + ([delim] + b), limit, delim) == [a] + Fields(b, limit - 1, delim)
  {
    FindAt(a, delim, b);
    var s := a + ([delim] + b);
    assert s == a + [delim] + b;
    assert s[..|a|] == a && s[|a| + 1..] == b;
  }

  lemma FieldsOfOne(a: string, limit: nat, delim: char)
    requires delim !in a && limit > 0
    ensures Fields(a, limit, delim) == [a]
  {
    FindAt(a, delim, "");
  }

  lemma DecHasOnlyDigits(n: nat)
    ensures forall c :: c in Dec(n) ==> IsDigit(c)
  {
    DecNatReads(n);
  }

  lemma DecHasNo(n: nat, delim: char)
    requires !IsDigit(delim)
    ensures delim !in Dec(n)
  {
    DecHasOnlyDigits(n);
  }

  lemma DecListHasNo(ns: seq<nat>, delim: char)
    requires !IsDigit(delim) && delim != ','
    ensures delim !in DecList(ns)
  {
    DecListChars(ns);
  }

  lemma FourFields(a: string, b: string, c: string, d: string, limit: nat, delim: char)
    requires delim !in a && delim !in b && delim !in c && delim !in d && limit >= 4
    ensures Fields(a + ([delim] + (b + ([delim] + (c + ([delim] + d))))), limit, delim) == [a, b, c, d]
  {
    hide Fields, Find;
    FieldsCons(a, limit, delim, b + ([delim] + (c + ([delim] + d))));
    FieldsCons(b, limit - 1, delim, c + ([delim] + d));
    FieldsCons(c, limit - 2, delim, d);
    FieldsOfOne(d, limit - 3, delim);
  }

  function Decs(ns: seq<nat>): (ss: seq<string>)
    ensures |ss| == |ns|
  {
    if ns == [] then [] else [Dec(ns[0])] + Decs(ns[1..])
  }

  lemma DecListCons(ns: seq<nat>)
    requires |ns| > 1
    ensures DecList(ns) == Dec(ns[0]) + ([','] + DecList(ns[1..]))
  {
    hide Dec;
    var rest := DecList(ns[1..]);
    assert DecList(ns) == Dec(ns[0]) + "," + rest;
    hide DecList;
    assert Dec(ns[0]) + "," + rest == Dec(ns[0]) + ([','] + rest);
  }

  lemma DecsCons(ns: seq<nat>)
    requires ns != []
    ensures Decs(ns) == [Dec(ns[0])] + Decs(ns[1..])
    ensures |ns| == 1 ==> Decs(ns) == [Dec(ns[0])] && DecList(ns) == Dec(ns[0])
  {
    hide Dec;
  }

  lemma {:induction false} DecListSplits(ns: seq<nat>, limit: nat)
    requires 0 < |ns| <= limit
    ensures Fields(DecList(ns), limit, ',') == Decs(ns)
    decreases |ns|
  {
    hide Dec, Fields, Find, DecList, Decs;
    DecHasNo(ns[0], ',');
    DecsCons(ns);
    if |ns| == 1 {
      FieldsOfOne(Dec(ns[0]), limit, ',');
    } else {
      FieldsCons(Dec(ns[0]), limit, ',', DecList(ns[1..]));
      DecListCons(ns);
      DecListSplits(ns[1..], limit - 1);
    }
  }

  lemma {:induction false} DecListChars(ns: seq<nat>)
    ensures forall c :: c in DecList(ns) ==> IsDigit(c) || c == ','
    decreases |ns|
  {
    if |ns| > 0 {
      DecHasOnlyDigits(ns[0]);
      DecListChars(ns[1..]);
    }
  }
}
