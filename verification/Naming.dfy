/**
  Names of derived objects: parts are sanitized, the longest one is shortened until everything fits into
  63 characters, and the parts are joined with hyphens in front of an optional hash.
 */
module Naming {
  import opened Common

  const MAX_LENGTH := 63

  predicate Alnum(c: char) {
    'a' <= c <= 'z' || '0' <= c <= '9'
  }

  predicate Permitted(c: char) {
    Alnum(c) || c == '-'
  }

  /** Characters whose lower-case form is an ASCII letter; every other one is left alone. */
  function Lower(c: char): char {
    if 'A' <= c <= 'Z' then c - 'A' + 'a'
    else if c == '\U{130}' then 'i'
    else if c == '\U{212A}' then 'k'
    else c
  }

  function CleanChar(c: char): (d: char)
    ensures Permitted(d)
  {
    if Permitted(Lower(c)) then Lower(c) else '-'
  }

  /** What becomes of each character. */
  lemma CleanCharIs(c: char)
    ensures 'a' <= c <= 'z' || '0' <= c <= '9' || c == '-' ==> CleanChar(c) == c
    ensures 'A' <= c <= 'Z' ==> CleanChar(c) as int == c as int + 32
    ensures c == '\U{130}' ==> CleanChar(c) == 'i'
    ensures c == '\U{212A}' ==> CleanChar(c) == 'k'
    ensures c !in {'\U{130}', '\U{212A}'} && !('a' <= c <= 'z' || '0' <= c <= '9' || 'A' <= c <= 'Z') ==>
      CleanChar(c) == '-'
  {
  }

  function Clean(s: string): (r: string)
    ensures |r| == |s| && forall i :: 0 <= i < |s| ==> r[i] == CleanChar(s[i])
  {
    seq(|s|, i requires 0 <= i < |s| => CleanChar(s[i]))
  }

  function TrimLeft(s: string): string {
    if s != [] && s[0] == '-' then TrimLeft(s[1..]) else s
  }

  function TrimRight(s: string): string {
    if s != [] && s[|s| - 1] == '-' then TrimRight(s[..|s| - 1]) else s
  }

  function MakeCompliant(s: string): string {
    var t := TrimRight(TrimLeft(Clean(s)));
    TrimRight(if |t| > MAX_LENGTH then t[..MAX_LENGTH] else t)
  }

  // ----- Sanitizing -----

  /** Host-name syntax: lower-case alphanumerics and hyphens, alphanumeric at both ends. */
  ghost predicate Label(s: string) {
    && s != []
    && (forall c :: c in s ==> Permitted(c))
    && Alnum(s[0])
    && Alnum(s[|s| - 1])
  }

  lemma {:induction false} TrimRightIs(s: string)
    ensures TrimRight(s) <= s
    ensures TrimRight(s) == [] || TrimRight(s)[|TrimRight(s)| - 1] != '-'
    ensures forall i :: |TrimRight(s)| <= i < |s| ==> s[i] == '-'
  {
    if s != [] && s[|s| - 1] == '-' {
      TrimRightIs(s[..|s| - 1]);
    }
  }

  lemma {:induction false} TrimLeftIs(s: string)
    ensures |TrimLeft(s)| <= |s| && TrimLeft(s) == s[|s| - |TrimLeft(s)|..]
    ensures TrimLeft(s) == [] || TrimLeft(s)[0] != '-'
    ensures forall i :: 0 <= i < |s| - |TrimLeft(s)| ==> s[i] == '-'
  {
    if s != [] && s[0] == '-' {
      TrimLeftIs(s[1..]);
      assert forall i :: 1 <= i < |s| ==> s[i] == s[1..][i - 1];
    }
  }

  /** Cutting a piece that begins alphanumeric and trimming it leaves such a piece again. */
  lemma TrimmedLabel(s: string)
    requires s != [] && Alnum(s[0]) && (forall c :: c in s ==> Permitted(c))
    ensures Label(TrimRight(s)) && TrimRight(s) <= s
  {
    TrimRightIs(s);
    var t := TrimRight(s);
    assert s[0] != '-';
    assert t[0] == s[0];
    assert forall c :: c in t ==> c in s;
    assert t[|t| - 1] in s;
  }

  /** The sanitized string is empty or a label of at most 63 characters; empty exactly if nothing survives. */
  lemma MakeCompliantLabel(s: string)
    ensures MakeCompliant(s) == [] || Label(MakeCompliant(s))
    ensures |MakeCompliant(s)| <= MAX_LENGTH
    ensures MakeCompliant(s) == [] <==> forall c :: c in s ==> !Alnum(Lower(c))
  {
    var c := Clean(s);
    var l := TrimLeft(c);
    var t := TrimRight(l);
    TrimLeftIs(c);
    TrimRightIs(l);
    assert forall x :: x in l ==> x in c;
    if l == [] {
      assert forall i :: 0 <= i < |s| ==> CleanChar(s[i]) == c[i] == '-';
      TrimRightIs([]);
    } else {
      var k := |c| - |l|;
      assert l[0] == c[k] == CleanChar(s[k]);
      assert s[k] in s && Alnum(Lower(s[k]));
      TrimmedLabel(l);
      var u := if |t| > MAX_LENGTH then t[..MAX_LENGTH] else t;
      assert u[0] == t[0] && forall x :: x in u ==> x in t;
      TrimmedLabel(u);
    }
  }

  /** Only hyphens are dropped in front and behind, and whatever lies beyond 63 characters. */
  lemma MakeCompliantContent(s: string) returns (k: nat)
    ensures var r := MakeCompliant(s);
      && k + |r| <= |s|
      && (forall i :: 0 <= i < |r| ==> r[i] == CleanChar(s[k + i]))
      && (forall i :: 0 <= i < k ==> CleanChar(s[i]) == '-')
      && (forall i :: k + |r| <= i < |s| && i < k + MAX_LENGTH ==> CleanChar(s[i]) == '-')
  {
    var l := TrimLeft(Clean(s));
    TrimLeftIs(Clean(s));
    k := |s| - |l|;
    assert forall i :: 0 <= i < |l| ==> l[i] == CleanChar(s[k + i]);
    assert forall i :: 0 <= i < k ==> CleanChar(s[i]) == Clean(s)[i];
    CutIs(l);
    forall i | k + |MakeCompliant(s)| <= i < |s| && i < k + MAX_LENGTH
      ensures CleanChar(s[i]) == '-'
    {
      assert l[i - k] == '-';
    }
  }

  lemma CutIs(l: string)
    ensures var t := TrimRight(l); var r := TrimRight(if |t| > MAX_LENGTH then t[..MAX_LENGTH] else t);
      r <= l && forall i :: |r| <= i < |l| && i < MAX_LENGTH ==> l[i] == '-'
  {
    var t := TrimRight(l);
    TrimRightIs(l);
    TrimRightIs(if |t| > MAX_LENGTH then t[..MAX_LENGTH] else t);
  }

  lemma TrimsLabel(s: string)
    requires Label(s)
    ensures TrimLeft(s) == s && TrimRight(s) == s
  {
  }

  /** Sanitizing leaves alone exactly the labels that fit, and the empty string. */
  lemma MakeCompliantFixed(s: string)
    ensures MakeCompliant(s) == s <==> s == [] || (Label(s) && |s| <= MAX_LENGTH)
  {
    MakeCompliantLabel(s);
    if Label(s) && |s| <= MAX_LENGTH {
      assert Clean(s) == s;
      TrimsLabel(s);
    }
  }

  // ----- Assembling -----

  function Join(parts: seq<string>): string {
    if parts == [] then []
    else if |parts| == 1 then parts[0]
    else Join(parts[..|parts| - 1]) + "-" + parts[|parts| - 1]
  }

  /** Parts are joined in their order, with one hyphen between two of them. */
  lemma {:induction false} JoinConcat(a: seq<string>, b: seq<string>)
    requires a != [] && b != []
    ensures Join(a + b) == Join(a) + "-" + Join(b)
    ensures |b| == 1 ==> Join(b) == b[0]
  {
    var init, last := b[..|b| - 1], b[|b| - 1];
    JoinSnoc(a + init, last);
    assert a + b == (a + init) + [last];
    if init != [] {
      JoinConcat(a, init);
      JoinSnoc(init, last);
      assert b == init + [last];
      Regroup(Join(a), Join(init), last);
    } else {
      assert a + init == a;
    }
  }

  lemma JoinSnoc(a: seq<string>, last: string)
    requires a != []
    ensures Join(a + [last]) == Join(a) + "-" + last
  {
    assert (a + [last])[..|a|] == a;
  }

  lemma Regroup(a: string, b: string, c: string)
    ensures ((a + "-") + b) + "-" + c == (a + "-") + ((b + "-") + c)
  {
  }

  function Assemble(parts: seq<string>, suffix: string): string {
    Join(parts) + if suffix == "" then "" else "-" + suffix
  }

  function Sum(parts: seq<string>): nat {
    if parts == [] then 0 else Sum(parts[..|parts| - 1]) + |parts[|parts| - 1]|
  }

  lemma {:induction false} JoinLength(parts: seq<string>)
    requires parts != []
    ensures |Join(parts)| == Sum(parts) + |parts| - 1
  {
    if |parts| > 1 {
      JoinLength(parts[..|parts| - 1]);
    } else {
      assert Sum(parts[..0]) == 0;
    }
  }

  lemma {:induction false} SumUpdate(parts: seq<string>, i: nat, p: string)
    requires i < |parts|
    ensures Sum(parts[i := p]) == Sum(parts) - |parts[i]| + |p|
  {
    var n := |parts| - 1;
    if i < n {
      assert parts[i := p][..n] == parts[..n][i := p];
      SumUpdate(parts[..n], i, p);
    } else {
      assert parts[i := p][..n] == parts[..n];
    }
  }

  lemma {:induction false} SumAtLeast(parts: seq<string>)
    requires forall i :: 0 <= i < |parts| ==> |parts[i]| >= 1
    ensures Sum(parts) >= |parts|
    ensures (forall i :: 0 <= i < |parts| ==> |parts[i]| == 1) ==> Sum(parts) == |parts|
  {
    if parts != [] {
      SumAtLeast(parts[..|parts| - 1]);
    }
  }

  lemma {:induction false} JoinLabel(parts: seq<string>)
    requires parts != [] && (forall p :: p in parts ==> Label(p))
    ensures Label(Join(parts))
  {
    var n := |parts| - 1;
    assert parts[n] in parts;
    if n > 0 {
      var front := Join(parts[..n]);
      JoinLabel(parts[..n]);
      AppendLabel(front, parts[n]);
    }
  }

  lemma AppendLabel(a: string, b: string)
    requires Label(a) && Label(b)
    ensures Label(a + "-" + b)
  {
    var s := a + "-" + b;
    assert s[0] == a[0] && s[|s| - 1] == b[|b| - 1];
  }

  // ----- The algorithm -----

  /** The length that the parts and the suffix take once assembled. */
  method CalculateLength(parts: seq<string>, suffix: string) returns (total: int)
    requires parts != []
    ensures total == |Assemble(parts, suffix)|
  {
    total := 0;
    for i := 0 to |parts|
      invariant total == Sum(parts[..i]) + i
    {
      assert parts[..i + 1][..i] == parts[..i];
      total := total + |parts[i]| + 1;
    }
    assert parts[..|parts|] == parts;
    JoinLength(parts);
    if suffix != "" {
      total := total + |suffix|;
    } else {
      total := total - 1;
    }
  }

  /** The first of the longest parts. */
  method FindLongest(parts: seq<string>) returns (longest: nat)
    requires parts != []
    ensures longest < |parts|
    ensures forall j :: 0 <= j < |parts| ==> |parts[j]| <= |parts[longest]|
    ensures forall j :: 0 <= j < longest ==> |parts[j]| < |parts[longest]|
  {
    longest := 0;
    for i := 1 to |parts|
      invariant longest < i
      invariant forall j :: 0 <= j < i ==> |parts[j]| <= |parts[longest]|
      invariant forall j :: 0 <= j < longest ==> |parts[j]| < |parts[longest]|
    {
      if |parts[i]| > |parts[longest]| {
        longest := i;
      }
    }
  }

  function SanitizedPart(part: string): (r: string)
  {
    if MakeCompliant(part) == "" then "part" else MakeCompliant(part)
  }

  lemma SanitizedLabel(part: string)
    ensures Label(SanitizedPart(part))
  {
    MakeCompliantLabel(part);
  }

  method Sanitize(nameParts: seq<string>) returns (parts: seq<string>)
    ensures |parts| == |nameParts|
    ensures forall i :: 0 <= i < |parts| ==> parts[i] == SanitizedPart(nameParts[i]) && Label(parts[i])
  {
    parts := [];
    for i := 0 to |nameParts|
      invariant |parts| == i
      invariant forall j :: 0 <= j < i ==> parts[j] == SanitizedPart(nameParts[j]) && Label(parts[j])
    {
      SanitizedLabel(nameParts[i]);
      var part := MakeCompliant(nameParts[i]);
      if part == "" {
        part := "part";
      }
      parts := parts + [part];
    }
  }

  /** Each piece is a label and a prefix of the part it came from. */
  ghost predicate Pieces(parts: seq<string>, whole: seq<string>) {
    |parts| == |whole| && forall i :: 0 <= i < |whole| ==> Label(parts[i]) && parts[i] <= whole[i]
  }

  /** A piece that was cut was the longest when it was cut last: no piece is longer than where that cut began. */
  ghost predicate LongestFirst(parts: seq<string>, whole: seq<string>) {
    |parts| == |whole| && forall i :: 0 <= i < |whole| && parts[i] != whole[i] ==> CutLongest(parts, whole[i], i)
  }

  ghost predicate CutLongest(parts: seq<string>, whole: string, i: nat)
    requires i < |parts|
  {
    exists was :: CutFrom(parts, whole, i, was)
  }

  ghost predicate CutFrom(parts: seq<string>, whole: string, i: nat, was: string)
    requires i < |parts|
  {
    && was != [] && was <= whole
    && parts[i] == TrimRight(was[..|was| - 1])
    && forall j :: 0 <= j < |parts| ==> |parts[j]| <= |was|
  }

  /** Taking the last cut back would no longer fit. */
  ghost predicate LastCutNeeded(parts: seq<string>, whole: seq<string>, suffix: string) {
    |parts| == |whole| && exists i: nat, was: string :: i < |parts| && TooLong(parts, whole[i], suffix, i, was)
  }

  ghost predicate TooLong(parts: seq<string>, whole: string, suffix: string, i: nat, was: string)
    requires i < |parts|
  {
    CutFrom(parts, whole, i, was) && |Assemble(parts[i := was], suffix)| > MAX_LENGTH
  }

  ghost predicate Truncated(parts: seq<string>, whole: seq<string>, suffix: string) {
    Pieces(parts, whole) && LongestFirst(parts, whole) && (parts == whole || LastCutNeeded(parts, whole, suffix))
  }

  /** One round: the longest piece loses its last character and then trailing hyphens. */
  method Shorten(parts: seq<string>, i: nat, ghost whole: seq<string>, ghost suffix: string)
    returns (parts': seq<string>)
    requires Truncated(parts, whole, suffix) && i < |parts| && |parts[i]| > 1
    requires forall j :: 0 <= j < |parts| ==> |parts[j]| <= |parts[i]|
    requires |Assemble(parts, suffix)| > MAX_LENGTH
    ensures Truncated(parts', whole, suffix) && Sum(parts') < Sum(parts)
  {
    parts' := parts[i := parts[i][..|parts[i]| - 1]];
    parts' := parts'[i := TrimRight(parts'[i])];
    assert parts' == parts[i := TrimRight(parts[i][..|parts[i]| - 1])];
    ShortenedPieces(parts, i, whole);
    ShortenedLongestFirst(parts, i, whole);
    ShortenedNeeded(parts, i, whole, suffix);
  }

  lemma ShortenedPieces(parts: seq<string>, i: nat, whole: seq<string>)
    requires Pieces(parts, whole) && i < |parts| && |parts[i]| > 1
    ensures Pieces(parts[i := TrimRight(parts[i][..|parts[i]| - 1])], whole)
    ensures Sum(parts[i := TrimRight(parts[i][..|parts[i]| - 1])]) < Sum(parts)
  {
    var cut := parts[i][..|parts[i]| - 1];
    assert cut[0] == parts[i][0] && forall c :: c in cut ==> c in parts[i];
    TrimmedLabel(cut);
    SumUpdate(parts, i, TrimRight(cut));
  }

  lemma CutFromLongest(parts: seq<string>, i: nat, whole: seq<string>)
    requires Pieces(parts, whole) && i < |parts| && |parts[i]| > 1
    requires forall j :: 0 <= j < |parts| ==> |parts[j]| <= |parts[i]|
    ensures CutFrom(parts[i := TrimRight(parts[i][..|parts[i]| - 1])], whole[i], i, parts[i])
  {
    TrimRightIs(parts[i][..|parts[i]| - 1]);
  }

  lemma ShortenedNeeded(parts: seq<string>, i: nat, whole: seq<string>, suffix: string)
    requires Pieces(parts, whole) && i < |parts| && |parts[i]| > 1
    requires forall j :: 0 <= j < |parts| ==> |parts[j]| <= |parts[i]|
    requires |Assemble(parts, suffix)| > MAX_LENGTH
    ensures LastCutNeeded(parts[i := TrimRight(parts[i][..|parts[i]| - 1])], whole, suffix)
  {
    var parts' := parts[i := TrimRight(parts[i][..|parts[i]| - 1])];
    CutFromLongest(parts, i, whole);
    assert parts'[i := parts[i]] == parts;
    assert TooLong(parts', whole[i], suffix, i, parts[i]);
  }

  lemma ShortenedLongestFirst(parts: seq<string>, i: nat, whole: seq<string>)
    requires Pieces(parts, whole) && LongestFirst(parts, whole) && i < |parts| && |parts[i]| > 1
    requires forall j :: 0 <= j < |parts| ==> |parts[j]| <= |parts[i]|
    ensures LongestFirst(parts[i := TrimRight(parts[i][..|parts[i]| - 1])], whole)
  {
    var parts' := parts[i := TrimRight(parts[i][..|parts[i]| - 1])];
    CutFromLongest(parts, i, whole);
    forall k | 0 <= k < |whole| && parts'[k] != whole[k]
      ensures CutLongest(parts', whole[k], k)
    {
      if k != i {
        var was :| CutFrom(parts, whole[k], k, was);
        assert |parts'[i]| <= |parts[i]|;
        assert CutFrom(parts', whole[k], k, was);
      }
    }
  }

  /** The shortest length that `n` parts and the suffix can take. */
  function LeastLength(n: nat, suffix: string): int {
    if suffix == "" then 2 * n - 1 else 2 * n + |suffix|
  }

  lemma AssembledAtLeast(parts: seq<string>, suffix: string)
    requires parts != [] && (forall i :: 0 <= i < |parts| ==> |parts[i]| >= 1)
    ensures |Assemble(parts, suffix)| >= LeastLength(|parts|, suffix)
    ensures (forall i :: 0 <= i < |parts| ==> |parts[i]| == 1) ==>
      |Assemble(parts, suffix)| == LeastLength(|parts|, suffix)
  {
    JoinLength(parts);
    SumAtLeast(parts);
  }

  lemma TruncatedLength(parts: seq<string>, whole: seq<string>, suffix: string)
    requires Truncated(parts, whole, suffix) && parts != []
    ensures |Assemble(parts, suffix)| >= LeastLength(|whole|, suffix)
    ensures (forall i :: 0 <= i < |parts| ==> |parts[i]| <= 1) ==>
      |Assemble(parts, suffix)| == LeastLength(|whole|, suffix)
  {
    assert forall i :: 0 <= i < |parts| ==> Label(parts[i]);
    AssembledAtLeast(parts, suffix);
  }

  /** Shortens the longest piece until everything fits, or every piece is down to one character. */
  method Truncate(whole: seq<string>, suffix: string) returns (parts: seq<string>)
    requires whole != [] && (forall i :: 0 <= i < |whole| ==> Label(whole[i]))
    ensures Truncated(parts, whole, suffix)
    ensures |Assemble(parts, suffix)| <= MAX_LENGTH <==> LeastLength(|whole|, suffix) <= MAX_LENGTH
  {
    parts := whole;
    var total := CalculateLength(parts, suffix);
    while total > MAX_LENGTH
      invariant Truncated(parts, whole, suffix) && total == |Assemble(parts, suffix)|
      decreases Sum(parts)
    {
      var longest := FindLongest(parts);
      if |parts[longest]| > 1 {
        parts := Shorten(parts, longest, whole, suffix);
      } else {
        break;
      }
      total := CalculateLength(parts, suffix);
    }
    TruncatedLength(parts, whole, suffix);
  }

  datatype Outcome = Name(name: string) | NoParts | HashTooShort

  ghost predicate HexHash(hash: string) {
    |hash| == 64 && forall c :: c in hash ==> '0' <= c <= '9' || 'a' <= c <= 'f'
  }

  /** The suffix: absent without inputs or length, none if the hash has fewer characters than asked for. */
  function Suffix(hashLength: int, hash: Option<string>): Option<string> {
    if hashLength <= 0 || hash.None? then Some("")
    else if hashLength <= |hash.value| then Some(hash.value[..hashLength])
    else None
  }

  ghost predicate FromParts(name: string, nameParts: seq<string>, suffix: string) {
    exists parts: seq<string>, whole: seq<string> ::
      && |whole| == |nameParts|
      && (forall i :: 0 <= i < |whole| ==> whole[i] == SanitizedPart(nameParts[i]))
      && Truncated(parts, whole, suffix)
      && name == Join(parts) + if suffix == "" then "" else "-" + suffix
  }

  /** The last characters of a name are a hyphen and the first `n` characters of the hash. */
  ghost predicate EndsWith(name: string, hash: string, n: nat)
    requires n <= |hash|
  {
    |name| > n && name[|name| - n - 1] == '-' && name[|name| - n..] == hash[..n]
  }

  /** `hash` is the hash of the hash inputs, if there are any. */
  method GenerateDerivedName(nameParts: seq<string>, hashLength: int, hash: Option<string>) returns (r: Outcome)
    requires hash.Some? ==> HexHash(hash.value)
    ensures r.NoParts? <==> nameParts == []
    ensures r.HashTooShort? <==> nameParts != [] && hash.Some? && hashLength > |hash.value|
    ensures r.Name? ==> Label(r.name) && FromParts(r.name, nameParts, Suffix(hashLength, hash).value)
    ensures r.Name? && hash.Some? && hashLength > 0 ==>
      hashLength <= |hash.value| && EndsWith(r.name, hash.value, hashLength)
    ensures r.Name? ==>
      (|r.name| <= MAX_LENGTH <==> LeastLength(|nameParts|, Suffix(hashLength, hash).value) <= MAX_LENGTH)
    ensures r.Name? && hash.None? ==> (|r.name| <= MAX_LENGTH <==> |nameParts| <= 32)
    ensures r.Name? && hash.Some? && hashLength == 8 ==> (|r.name| <= MAX_LENGTH <==> |nameParts| <= 27)
  {
    if nameParts == [] {
      return NoParts;
    }
    var whole := Sanitize(nameParts);
    var suffix := "";
    if hashLength > 0 && hash.Some? {
      if hashLength > |hash.value| {
        return HashTooShort;
      }
      suffix := hash.value[..hashLength];
    }
    var parts := Truncate(whole, suffix);
    r := Name(Assemble(parts, suffix));
    SuffixAlnum(hashLength, hash);
    assert forall i :: 0 <= i < |parts| ==> Label(parts[i]);
    AssembledLabel(parts, suffix);
    if suffix != "" {
      AssembledEnds(parts, hash.value, hashLength);
    }
  }

  lemma AssembledEnds(parts: seq<string>, hash: string, n: nat)
    requires 0 < n <= |hash|
    ensures EndsWith(Assemble(parts, hash[..n]), hash, n)
  {
    var name := Assemble(parts, hash[..n]);
    assert name == Join(parts) + ("-" + hash[..n]) && |name| == |Join(parts)| + 1 + n;
  }

  lemma SuffixAlnum(hashLength: int, hash: Option<string>)
    requires hash.Some? ==> HexHash(hash.value)
    ensures Suffix(hashLength, hash).Some? ==> forall c :: c in Suffix(hashLength, hash).value ==> Alnum(c)
  {
    if hash.Some? && 0 < hashLength <= |hash.value| {
      assert forall c :: c in hash.value[..hashLength] ==> c in hash.value;
    }
  }

  lemma AssembledLabel(parts: seq<string>, suffix: string)
    requires parts != [] && (forall p :: p in parts ==> Label(p))
    requires forall c :: c in suffix ==> Alnum(c)
    ensures Label(Assemble(parts, suffix))
  {
    JoinLabel(parts);
    if suffix != "" {
      AppendLabel(Join(parts), suffix);
    }
  }
}
