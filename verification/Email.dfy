/** Corporate e-mail addresses: the normal form of a name part and the search for a free address. */
module Email {
  import opened Text

  // ---- Normalising a name part. `nfkd` is Unicode's compatibility decomposition. ----

  function Filter(s: string, keep: char -> bool): string {
    if s == [] then [] else (if keep(s[0]) then [s[0]] else []) + Filter(s[1..], keep)
  }

  function LowerChar(c: char): char {
    if 'A' <= c <= 'Z' then (c as int - 'A' as int + 'a' as int) as char else c
  }

  function Lower(s: string): (r: string)
    ensures |r| == |s|
  {
    seq(|s|, i requires 0 <= i < |s| => LowerChar(s[i]))
  }

  predicate IsAscii(c: char) {
    c < 128 as char
  }

  /** What str.strip() strips, among ASCII characters. */
  predicate IsSpace(c: char) {
    c == ' ' || (9 as char <= c <= 13 as char) || (28 as char <= c <= 31 as char)
  }

  predicate IsKept(c: char) {
    'a' <= c <= 'z' || IsDigit(c) || c == '.' || c == '-'
  }

  predicate IsDot(c: char) {
    c == '.'
  }

  function Dotted(s: string): string {
    seq(|s|, i requires 0 <= i < |s| => if s[i] == ' ' then '.' else s[i])
  }

  function StripLeft(s: string, drop: char -> bool): string {
    if s != [] && drop(s[0]) then StripLeft(s[1..], drop) else s
  }

  function StripRight(s: string, drop: char -> bool): string {
    if s != [] && drop(s[|s| - 1]) then StripRight(s[..|s| - 1], drop) else s
  }

  function Strip(s: string, drop: char -> bool): string {
    StripRight(StripLeft(s, drop), drop)
  }

  /** Runs of dots become one dot. */
  function Collapse(s: string): string {
    if |s| < 2 then s
    else if s[0] == '.' && s[1] == '.' then Collapse(s[1..])
    else [s[0]] + Collapse(s[1..])
  }

  function NormalizeNamePart(name: string, nfkd: string -> string): string {
    var ascii := Filter(nfkd(name), IsAscii);
    var lowered := Strip(Lower(ascii), IsSpace);
    var kept := Filter(Dotted(lowered), IsKept);
    Strip(Collapse(kept), IsDot)
  }

  /** Lower-case letters, digits, hyphens, and single dots strictly inside. */
  predicate IsNormal(s: string) {
    && (forall i :: 0 <= i < |s| ==> IsKept(s[i]))
    && (forall i :: 0 <= i < |s| - 1 ==> !(s[i] == '.' && s[i + 1] == '.'))
    && (s != [] ==> s[0] != '.' && s[|s| - 1] != '.')
  }

  lemma {:induction false} FilterKeeps(s: string, keep: char -> bool)
    ensures forall i :: 0 <= i < |Filter(s, keep)| ==> keep(Filter(s, keep)[i])
    ensures (forall i :: 0 <= i < |s| ==> keep(s[i])) ==> Filter(s, keep) == s
  {
    if s != [] {
      FilterKeeps(s[1..], keep);
      if forall i :: 0 <= i < |s| ==> keep(s[i]) {
        assert forall i :: 0 <= i < |s[1..]| ==> s[1..][i] == s[i + 1];
      }
    }
  }

  predicate NoDoubleDot(s: string) {
    forall i :: 0 <= i < |s| - 1 ==> !(s[i] == '.' && s[i + 1] == '.')
  }

  lemma {:induction false} CollapseWorks(s: string)
    ensures NoDoubleDot(Collapse(s))
    ensures s != [] ==> Collapse(s) != [] && Collapse(s)[0] == s[0]
    ensures (forall i :: 0 <= i < |s| ==> IsKept(s[i])) ==>
              forall i :: 0 <= i < |Collapse(s)| ==> IsKept(Collapse(s)[i])
    ensures NoDoubleDot(s) ==> Collapse(s) == s
  {
    if |s| >= 2 {
      CollapseWorks(s[1..]);
      assert forall i :: 0 <= i < |s[1..]| ==> s[1..][i] == s[i + 1];
      if NoDoubleDot(s) {
        assert !(s[0] == '.' && s[1] == '.');
        assert NoDoubleDot(s[1..]);
      }
      if !(s[0] == '.' && s[1] == '.') {
        var r := Collapse(s);
        assert forall i :: 0 < i < |r| ==> r[i] == Collapse(s[1..])[i - 1];
      }
    }
  }

  /** Stripping leaves a slice whose ends are not to be dropped. */
  lemma {:induction false} StripLeftSlices(s: string, drop: char -> bool) returns (a: nat)
    ensures a <= |s| && StripLeft(s, drop) == s[a..] && (a < |s| ==> !drop(s[a]))
    ensures s != [] && !drop(s[0]) ==> a == 0
  {
    a := 0;
    if s != [] && drop(s[0]) {
      var b := StripLeftSlices(s[1..], drop);
      a := b + 1;
    }
  }

  lemma {:induction false} StripRightSlices(s: string, drop: char -> bool) returns (b: nat)
    ensures b <= |s| && StripRight(s, drop) == s[..b] && (b > 0 ==> !drop(s[b - 1]))
    ensures s != [] && !drop(s[|s| - 1]) ==> b == |s|
  {
    b := |s|;
    if s != [] && drop(s[|s| - 1]) {
      b := StripRightSlices(s[..|s| - 1], drop);
      assert s[..|s| - 1][..b] == s[..b];
    }
  }

  /** A slice of a collapsed string of kept characters, with no dot at either end, is normal. */
  lemma SliceIsNormal(s: string, a: nat, b: nat)
    requires a <= b <= |s| && NoDoubleDot(s) && forall i :: 0 <= i < |s| ==> IsKept(s[i])
    requires a < b ==> s[a] != '.' && s[b - 1] != '.'
    ensures IsNormal(s[a..b])
  {
    var r := s[a..b];
    assert forall i :: 0 <= i < |r| ==> r[i] == s[a + i];
  }

  lemma StripIsNormal(s: string)
    requires NoDoubleDot(s) && forall i :: 0 <= i < |s| ==> IsKept(s[i])
    ensures IsNormal(Strip(s, IsDot))
  {
    var a := StripLeftSlices(s, IsDot);
    var b := StripRightSlices(s[a..], IsDot);
    assert s[a..][..b] == s[a..a + b];
    SliceIsNormal(s, a, a + b);
  }

  /** Whatever the decomposition does. */
  lemma NormalResult(name: string, nfkd: string -> string)
    ensures IsNormal(NormalizeNamePart(name, nfkd))
  {
    var dotted := Dotted(Strip(Lower(Filter(nfkd(name), IsAscii)), IsSpace));
    FilterKeeps(dotted, IsKept);
    CollapseWorks(Filter(dotted, IsKept));
    StripIsNormal(Collapse(Filter(dotted, IsKept)));
  }

  lemma StripNothing(s: string, drop: char -> bool)
    requires s != [] ==> !drop(s[0]) && !drop(s[|s| - 1])
    ensures Strip(s, drop) == s
  {
    if s != [] {
      var a := StripLeftSlices(s, drop);
      var b := StripRightSlices(s, drop);
    }
  }

  /** ASCII text has nothing to decompose. */
  ghost predicate LeavesAscii(nfkd: string -> string) {
    forall s: string :: (forall i :: 0 <= i < |s| ==> IsAscii(s[i])) ==> nfkd(s) == s
  }

  /** A normal string passes every stage unchanged. */
  lemma NormalChars(s: string)
    requires IsNormal(s)
    ensures forall i :: 0 <= i < |s| ==> IsAscii(s[i]) && !IsSpace(s[i]) && LowerChar(s[i]) == s[i] && s[i] != ' '
  {
    forall i | 0 <= i < |s|
      ensures IsAscii(s[i]) && !IsSpace(s[i]) && LowerChar(s[i]) == s[i] && s[i] != ' '
    {
      assert IsKept(s[i]);
    }
  }

  lemma NormalIsStripped(s: string)
    requires IsNormal(s)
    ensures Filter(s, IsAscii) == s && Lower(s) == s && Strip(s, IsSpace) == s && Dotted(s) == s
  {
    NormalChars(s);
    FilterKeeps(s, IsAscii);
    assert Lower(s) == s && Dotted(s) == s;
    StripNothing(s, IsSpace);
  }

  lemma NormalIsCollapsed(s: string)
    requires IsNormal(s)
    ensures Filter(s, IsKept) == s && Collapse(s) == s && Strip(s, IsDot) == s
  {
    FilterKeeps(s, IsKept);
    CollapseWorks(s);
    StripNothing(s, IsDot);
  }

  lemma NormalIsFixed(s: string, nfkd: string -> string)
    requires IsNormal(s) && LeavesAscii(nfkd)
    ensures NormalizeNamePart(s, nfkd) == s
  {
    NormalChars(s);
    assert nfkd(s) == s;
    NormalIsStripped(s);
    NormalIsCollapsed(s);
  }

  lemma NormalizeIsIdempotent(name: string, nfkd: string -> string)
    requires LeavesAscii(nfkd)
    ensures NormalizeNamePart(NormalizeNamePart(name, nfkd), nfkd) == NormalizeNamePart(name, nfkd)
  {
    NormalResult(name, nfkd);
    NormalIsFixed(NormalizeNamePart(name, nfkd), nfkd);
  }

  /** Letters, digits, hyphens, and single dots or spaces strictly inside. */
  predicate IsPlainName(s: string) {
    && s != []
    && (forall i :: 0 <= i < |s| ==> 'A' <= s[i] <= 'Z' || IsKept(s[i]) || s[i] == ' ')
    && (forall i :: 0 <= i < |s| - 1 ==> !((s[i] == '.' || s[i] == ' ') && (s[i + 1] == '.' || s[i + 1] == ' ')))
    && s[0] != '.' && s[0] != ' ' && s[|s| - 1] != '.' && s[|s| - 1] != ' '
  }

  /** Character by character: capitals in lower case, spaces as dots, everything else as it is. */
  function PlainForm(s: string): (r: string)
    ensures |r| == |s|
  {
    seq(|s|, i requires 0 <= i < |s| =>
      if s[i] == ' ' then '.' else if 'A' <= s[i] <= 'Z' then 'a' + (s[i] - 'A') else s[i])
  }

  lemma PlainChar(c: char)
    requires 'A' <= c <= 'Z' || IsKept(c) || c == ' '
    ensures IsAscii(c) && (c != ' ' ==> !IsSpace(LowerChar(c)))
    ensures (if LowerChar(c) == ' ' then '.' else LowerChar(c)) ==
            if c == ' ' then '.' else if 'A' <= c <= 'Z' then 'a' + (c - 'A') else c
  {
  }

  lemma PlainNameStages(s: string)
    requires IsPlainName(s)
    ensures Filter(s, IsAscii) == s && Strip(Lower(s), IsSpace) == Lower(s) && Dotted(Lower(s)) == PlainForm(s)
  {
    forall i | 0 <= i < |s|
      ensures IsAscii(s[i]) && (s[i] != ' ' ==> !IsSpace(Lower(s)[i])) && Dotted(Lower(s))[i] == PlainForm(s)[i]
    {
      PlainChar(s[i]);
    }
    FilterKeeps(s, IsAscii);
    StripNothing(Lower(s), IsSpace);
  }

  lemma PlainFormIsNormal(s: string)
    requires IsPlainName(s)
    ensures IsNormal(PlainForm(s))
  {
    var r := PlainForm(s);
    forall i | 0 <= i < |r| ensures IsKept(r[i]) && (r[i] == '.' <==> s[i] == '.' || s[i] == ' ') {
      assert 'A' <= s[i] <= 'Z' || IsKept(s[i]) || s[i] == ' ';
    }
  }

  /** A plain name keeps all its characters. */
  lemma PlainNameForm(s: string, nfkd: string -> string)
    requires IsPlainName(s) && LeavesAscii(nfkd)
    ensures NormalizeNamePart(s, nfkd) == PlainForm(s)
  {
    assert nfkd(s) == s;
    PlainNameStages(s);
    PlainFormIsNormal(s);
    NormalIsCollapsed(PlainForm(s));
  }

  // ---- The search for a free address. `lowered` is the domain in lower case, whatever its script. ----

  function Bare(base: string, lowered: string): string {
    Lower(base) + "@" + lowered
  }

  function Numbered(base: string, k: nat, lowered: string): string {
    Lower(base + NatText(k)) + "@" + lowered
  }

  lemma NumberedIsInjective(base: string, j: nat, k: nat, lowered: string)
    requires Numbered(base, j, lowered) == Numbered(base, k, lowered)
    ensures j == k
  {
    var n := |NatText(j)|;
    assert |NatText(k)| == n;
    forall i | 0 <= i < n ensures NatText(j)[i] == NatText(k)[i] {
      assert Numbered(base, j, lowered)[|base| + i] == LowerChar(NatText(j)[i]);
      assert Numbered(base, k, lowered)[|base| + i] == LowerChar(NatText(k)[i]);
    }
    assert NatText(j) == NatText(k);
    ParseNatOfText(j);
    ParseNatOfText(k);
  }

  /** The bare address and the numbered ones below `k`. */
  ghost function Tried(base: string, lowered: string, k: nat): set<string> {
    {Bare(base, lowered)} + set j | 2 <= j < k :: Numbered(base, j, lowered)
  }

  lemma TriedGrows(base: string, lowered: string, k: nat)
    requires k >= 2
    ensures Numbered(base, k, lowered) !in Tried(base, lowered, k)
    ensures Tried(base, lowered, k + 1) == Tried(base, lowered, k) + {Numbered(base, k, lowered)}
  {
    if Numbered(base, k, lowered) in Tried(base, lowered, k) {
      assert |Bare(base, lowered)| != |Numbered(base, k, lowered)|;
      var j :| 2 <= j < k && Numbered(base, j, lowered) == Numbered(base, k, lowered);
      NumberedIsInjective(base, j, k, lowered);
    }
  }

  lemma SubsetIsSmaller<T>(a: set<T>, b: set<T>)
    requires a <= b
    ensures |a| <= |b|
  {
    assert b == a + (b - a);
  }

  /** Every address tried before `k` is taken, and there were k - 1 of them. */
  ghost predicate AllTaken(base: string, lowered: string, k: nat, existing: set<string>) {
    && 2 <= k <= |existing| + 1
    && Tried(base, lowered, k) <= existing && |Tried(base, lowered, k)| == k - 1
  }

  lemma NextTry(base: string, lowered: string, k: nat, existing: set<string>)
    requires AllTaken(base, lowered, k, existing) && Numbered(base, k, lowered) in existing
    ensures AllTaken(base, lowered, k + 1, existing)
  {
    TriedGrows(base, lowered, k);
    SubsetIsSmaller(Tried(base, lowered, k + 1), existing);
  }

  lemma FirstTry(base: string, lowered: string, existing: set<string>)
    requires Bare(base, lowered) in existing
    ensures AllTaken(base, lowered, 2, existing)
  {
    assert Tried(base, lowered, 2) == {Bare(base, lowered)};
    SubsetIsSmaller(Tried(base, lowered, 2), existing);
  }

  lemma AllTakenNumbers(base: string, lowered: string, k: nat, existing: set<string>)
    requires AllTaken(base, lowered, k, existing)
    ensures k <= |existing| + 1 && forall j :: 2 <= j < k ==> Numbered(base, j, lowered) in existing
  {
    assert forall j :: 2 <= j < k ==> Numbered(base, j, lowered) in Tried(base, lowered, k);
  }

  /** The base of the address; an empty part is replaced. */
  function BaseName(firstName: string, lastName: string, nfkd: string -> string): string {
    var first, last := NormalizeNamePart(firstName, nfkd), NormalizeNamePart(lastName, nfkd);
    (if first == [] then "user" else first) + "." + (if last == [] then "unknown" else last)
  }

  lemma BaseIsLower(first: string, last: string, k: nat)
    requires IsNormal(first) && IsNormal(last)
    ensures Lower(first + "." + last) == first + "." + last
    ensures Lower(first + "." + last + NatText(k)) == first + "." + last + NatText(k)
  {
    NormalChars(first);
    NormalChars(last);
    var base := first + "." + last;
    forall i | 0 <= i < |base| ensures LowerChar(base[i]) == base[i] {
      assert base[i] == if i < |first| then first[i] else if i == |first| then '.' else last[i - |first| - 1];
    }
    assert Lower(base) == base;
    assert Lower(base + NatText(k)) == base + NatText(k);
  }

  lemma BaseNameForm(firstName: string, lastName: string, nfkd: string -> string, k: nat)
    ensures var base := BaseName(firstName, lastName, nfkd);
            Lower(base) == base && Lower(base + NatText(k)) == base + NatText(k)
  {
    NormalResult(firstName, nfkd);
    NormalResult(lastName, nfkd);
    var first, last := NormalizeNamePart(firstName, nfkd), NormalizeNamePart(lastName, nfkd);
    BaseIsLower(if first == [] then "user" else first, if last == [] then "unknown" else last, k);
  }

  lemma NumberedForm(base: string, k: nat, lowered: string)
    requires Lower(base + NatText(k)) == base + NatText(k)
    ensures Numbered(base, k, lowered) == base + NatText(k) + ("@" + lowered)
  {
  }

  /** `first.last@domain` if that is free, otherwise the one with the least free number from 2 on. */
  method GenerateCorporateEmail(
    firstName: string, lastName: string, domain: string, existing: set<string>,
    nfkd: string -> string, lower: string -> string) returns (email: string)
    ensures email !in existing
    ensures var first, last := NormalizeNamePart(firstName, nfkd), NormalizeNamePart(lastName, nfkd);
            var base := (if first == "" then "user" else first) + "." + (if last == "" then "unknown" else last);
            var at := "@" + lower(domain);
            if base + at !in existing then email == base + at
            else exists k: nat :: 2 <= k <= |existing| + 1 && email == base + NatText(k) + at
                   && forall j: nat :: 2 <= j < k ==> base + NatText(j) + at in existing
  {
    var base, lowered := BaseName(firstName, lastName, nfkd), lower(domain);
    ghost var at := "@" + lowered;
    forall k: nat ensures Numbered(base, k, lowered) == base + NatText(k) + at {
      BaseNameForm(firstName, lastName, nfkd, k);
      NumberedForm(base, k, lowered);
    }
    BaseNameForm(firstName, lastName, nfkd, 0);
    assert Bare(base, lowered) == base + at;
    if Bare(base, lowered) !in existing {
      return Bare(base, lowered);
    }
    var counter := 2;
    FirstTry(base, lowered, existing);
    while Numbered(base, counter, lowered) in existing
      invariant 2 <= counter && AllTaken(base, lowered, counter, existing)
      decreases |existing| + 1 - counter
    {
      NextTry(base, lowered, counter, existing);
      counter := counter + 1;
    }
    AllTakenNumbers(base, lowered, counter, existing);
    email := Numbered(base, counter, lowered);
  }
}
