/**
 * `safe_filename`: the name an uploaded drawing is stored under. Reserved
 * characters are deleted, dots and spaces are trimmed from both ends, and an
 * empty result falls back to a fixed default name.
 */
module FileName {
  import opened Sequences

  /** The characters of the regular-expression class `[<>:"/\\|?*]`. */
  const Reserved: set<char> := {'<', '>', ':', '"', '/', '\\', '|', '?', '*'}

  /** The characters of `strip('. ')`. */
  const Trimmed: set<char> := {'.', ' '}

  const DefaultName: string := "upload_file.dxf"

  predicate NoReserved(s: string) {
    forall i :: 0 <= i < |s| ==> s[i] !in Reserved
  }

  /** Neither end of s is a dot or a space. */
  predicate CleanEnds(s: string) {
    s != [] ==> s[0] !in Trimmed && s[|s| - 1] !in Trimmed
  }

  /** `re.sub(r'[<>:"/\\|?*]', '', s)`: the other characters, in their order. */
  function RemoveReserved(s: string): (r: string)
    ensures NoReserved(r)
    ensures IsSubsequence(r, s)
    decreases |s|
  {
    if s == [] then []
    else
      var rest := RemoveReserved(s[..|s| - 1]);
      if s[|s| - 1] in Reserved then
        assert rest != [] ==> rest[|rest| - 1] != s[|s| - 1];
        rest
      else
        assert (rest + [s[|s| - 1]])[..|rest|] == rest;
        rest + [s[|s| - 1]]
  }

  /** Every other character is kept, as often as it occurs; no reserved character is. */
  lemma {:induction false} RemoveReservedKeepsTheRest(s: string)
    ensures forall c :: c !in Reserved ==> multiset(RemoveReserved(s))[c] == multiset(s)[c]
    ensures forall c :: c in Reserved ==> multiset(RemoveReserved(s))[c] == 0
    decreases |s|
  {
    if s != [] {
      var init, last := s[..|s| - 1], s[|s| - 1];
      RemoveReservedKeepsTheRest(init);
      assert s == init + [last];
      assert multiset(s) == multiset(init) + multiset{last};
      assert multiset(RemoveReserved(s)) ==
        multiset(RemoveReserved(init)) + if last in Reserved then multiset{} else multiset{last};
    }
  }

  /** `s.lstrip('. ')`: the suffix left after dropping leading dots and spaces. */
  function StripLeading(s: string): (r: string)
    ensures |r| <= |s| && r == s[|s| - |r|..]
    ensures forall k :: 0 <= k < |s| - |r| ==> s[k] in Trimmed
    ensures r != [] ==> r[0] !in Trimmed
    decreases |s|
  {
    if s != [] && s[0] in Trimmed then StripLeading(s[1..]) else s
  }

  /** `s.rstrip('. ')`: the prefix left after dropping trailing dots and spaces. */
  function StripTrailing(s: string): (r: string)
    ensures |r| <= |s| && r == s[..|r|]
    ensures forall k :: |r| <= k < |s| ==> s[k] in Trimmed
    ensures r != [] ==> r[|r| - 1] !in Trimmed
    decreases |s|
  {
    if s != [] && s[|s| - 1] in Trimmed then StripTrailing(s[..|s| - 1]) else s
  }

  /** `s.strip('. ')` */
  function Strip(s: string): string {
    StripTrailing(StripLeading(s))
  }

  /** How many leading dots and spaces `strip` removes. */
  function LeadingTrimmed(s: string): nat {
    |s| - |StripLeading(s)|
  }

  /** `strip` leaves a contiguous part of s whose ends are clean. */
  lemma StripIsCleanInfix(s: string)
    ensures var r := Strip(s);
      CleanEnds(r) && LeadingTrimmed(s) + |r| <= |s| &&
      r == s[LeadingTrimmed(s)..LeadingTrimmed(s) + |r|]
  {
  }

  lemma NoReservedInfix(s: string, i: nat, j: nat)
    requires NoReserved(s) && i <= j <= |s|
    ensures NoReserved(s[i..j])
  {
    assert forall k :: 0 <= k < j - i ==> s[i..j][k] == s[i + k];
  }

  lemma DefaultNameIsSafe()
    ensures NoReserved(DefaultName) && CleanEnds(DefaultName)
  {
    forall i | 0 <= i < |DefaultName| ensures DefaultName[i] !in Reserved {
      assert DefaultName[i] in {'u', 'p', 'l', 'o', 'a', 'd', '_', 'f', 'i', 'e', '.', 'x'};
    }
  }

  /** `safe_filename(filename)` */
  function SafeFilename(name: string): (r: string)
  {
    var t := Strip(RemoveReserved(name));
    if t == [] || t == "." || t == ".." then DefaultName else t
  }

  /**
   * The stored name is never empty, holds no reserved character, neither
   * starts nor ends with a dot or a space, and is either the default name or
   * a contiguous part of the uploaded name with the reserved characters taken out.
   */
  lemma {:induction false} SafeFilenameIsSafe(name: string)
    ensures var r := SafeFilename(name);
      var s := RemoveReserved(name);
      r != [] && NoReserved(r) && CleanEnds(r) &&
      (r == DefaultName || r == s[LeadingTrimmed(s)..LeadingTrimmed(s) + |r|])
  {
    var s := RemoveReserved(name);
    var t := Strip(s);
    StripIsCleanInfix(s);
    if t == [] || t == "." || t == ".." {
      DefaultNameIsSafe();
    } else {
      NoReservedInfix(s, LeadingTrimmed(s), LeadingTrimmed(s) + |t|);
    }
  }

  /** The default name is used exactly when nothing but reserved characters, dots and spaces was uploaded. */
  lemma {:induction false} DefaultExactlyWhenNothingRemains(name: string)
    ensures SafeFilename(name) == DefaultName <==>
      (Strip(RemoveReserved(name)) == [] || Strip(RemoveReserved(name)) == DefaultName)
  {
    StripIsCleanInfix(RemoveReserved(name));
  }

  lemma {:induction false} RemoveReservedKeepsClean(s: string)
    requires NoReserved(s)
    ensures RemoveReserved(s) == s
    decreases |s|
  {
    if s != [] {
      RemoveReservedKeepsClean(s[..|s| - 1]);
    }
  }

  /** Sanitising a name that is already safe changes nothing. */
  lemma {:induction false} SafeFilenameIdempotent(name: string)
    ensures SafeFilename(SafeFilename(name)) == SafeFilename(name)
  {
    var r := SafeFilename(name);
    SafeFilenameIsSafe(name);
    RemoveReservedKeepsClean(r);
    assert StripLeading(r) == r;
    assert StripTrailing(r) == r;
  }
}
