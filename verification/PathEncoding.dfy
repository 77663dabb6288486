/** How repository ids become directory names in the dataset cache. */
module PathEncoding {

  const TMP_SUFFIX: string := ".tmp"

  /** `repo_id.replace("/", "__")` */
  function SafeName(id: string): string {
    if id == "" then "" else (if id[0] == '/' then "__" else [id[0]]) + SafeName(id[1..])
  }

  function FinalName(id: string): string {
    SafeName(id)
  }

  function TmpName(id: string): string {
    SafeName(id) + TMP_SUFFIX
  }

  predicate EndsWith(s: string, suffix: string) {
    |suffix| <= |s| && s[|s| - |suffix|..] == suffix
  }

  predicate IsTmp(name: string) {
    EndsWith(name, TMP_SUFFIX)
  }

  // ---- ids of the form owner/name -----------------------------------------------------------

  predicate SlashFree(s: string) {
    '/' !in s
  }

  function Join(owner: string, name: string): string {
    owner + "/" + name
  }

  lemma {:induction false} SafeNameConcat(a: string, b: string)
    ensures SafeName(a + b) == SafeName(a) + SafeName(b)
  {
    if a == "" {
      assert a + b == b;
    } else {
      var head := if a[0] == '/' then "__" else [a[0]];
      calc {
        SafeName(a + b);
        { assert (a + b)[0] == a[0] && (a + b)[1..] == a[1..] + b; }
        head + SafeName(a[1..] + b);
        { SafeNameConcat(a[1..], b); }
        head + (SafeName(a[1..]) + SafeName(b));
        (head + SafeName(a[1..])) + SafeName(b);
        SafeName(a) + SafeName(b);
      }
    }
  }

  lemma {:induction false} SafeNameOfSlashFree(s: string)
    requires SlashFree(s)
    ensures SafeName(s) == s
  {
    if s != "" {
      SafeNameOfSlashFree(s[1..]);
    }
  }

  lemma FinalNameOfJoin(owner: string, name: string)
    requires SlashFree(owner) && SlashFree(name)
    ensures FinalName(Join(owner, name)) == owner + "__" + name
  {
    SafeNameConcat(owner + "/", name);
    SafeNameConcat(owner, "/");
    SafeNameOfSlashFree(owner);
    SafeNameOfSlashFree(name);
    assert "/"[1..] == "";
    assert SafeName("/") == "__";
  }

  // ---- when the name determines the id ------------------------------------------------------

  predicate Gap(e: string, i: int) {
    0 <= i && i + 1 < |e| && e[i] == '_' && e[i + 1] == '_'
  }

  predicate NoGap(s: string) {
    forall i :: 0 <= i < |s| ==> !Gap(s, i)
  }

  /** No double underscore in either part, and none formed with the separator. */
  predicate Clean(owner: string, name: string) {
    && NoGap(owner) && NoGap(name)
    && !(owner != "" && owner[|owner| - 1] == '_')
    && !(name != "" && name[0] == '_')
  }

  lemma GapsOfClean(owner: string, name: string)
    ensures Clean(owner, name) <==> forall i :: Gap(owner + "__" + name, i) ==> i == |owner|
  {
    var e := owner + "__" + name;
    forall i | Gap(owner, i)
      ensures Gap(e, i)
    {
    }
    forall i | Gap(name, i)
      ensures Gap(e, |owner| + 2 + i)
    {
      assert e[|owner| + 2 + i] == name[i] && e[|owner| + 2 + i + 1] == name[i + 1];
    }
    if owner != "" && owner[|owner| - 1] == '_' {
      assert Gap(e, |owner| - 1);
    }
    if name != "" && name[0] == '_' {
      assert Gap(e, |owner| + 1);
    }
    forall i | Gap(e, i)
      ensures i < |owner| - 1 ==> Gap(owner, i)
      ensures i > |owner| + 1 ==> Gap(name, i - |owner| - 2)
      ensures i == |owner| - 1 ==> owner[i] == '_'
      ensures i == |owner| + 1 ==> name != "" && name[0] == '_'
    {
      assert i > |owner| + 1 ==> name[i - |owner| - 2] == e[i] && name[i - |owner| - 1] == e[i + 1];
    }
  }

  /** No other owner/name pair is stored under the same directory name. */
  ghost predicate NameIsUnique(owner: string, name: string) {
    forall o, n :: SlashFree(o) && SlashFree(n) && FinalName(Join(o, n)) == FinalName(Join(owner, name)) ==>
      o == owner && n == name
  }

  lemma CleanIsUnique(owner: string, name: string)
    requires SlashFree(owner) && SlashFree(name) && Clean(owner, name)
    ensures NameIsUnique(owner, name)
  {
    hide FinalName, Clean, Join;
    var e := owner + "__" + name;
    FinalNameOfJoin(owner, name);
    GapsOfClean(owner, name);
    forall o, n | SlashFree(o) && SlashFree(n) && FinalName(Join(o, n)) == FinalName(Join(owner, name))
      ensures o == owner && n == name
    {
      FinalNameOfJoin(o, n);
      SplitAt(e, o, n);
      SplitAt(e, owner, name);
    }
  }

  /** A name is joined at a gap, and where it is joined determines the parts. */
  lemma SplitAt(e: string, o: string, n: string)
    requires e == o + "__" + n
    ensures Gap(e, |o|) && o == e[..|o|] && n == e[|o| + 2..]
  {
  }

  lemma UncleanIsShared(owner: string, name: string)
    requires SlashFree(owner) && SlashFree(name) && !Clean(owner, name)
    ensures !NameIsUnique(owner, name)
  {
    hide FinalName, Clean, Join;
    var e := owner + "__" + name;
    FinalNameOfJoin(owner, name);
    GapsOfClean(owner, name);
    var i :| Gap(e, i) && i != |owner|;
    var o, n := e[..i], e[i + 2..];
    assert e == o + "__" + n;
    assert SlashFree(o) && SlashFree(n) && |o| != |owner|;
    FinalNameOfJoin(o, n);
  }

  /** The directory name determines the id exactly when the id is clean. */
  lemma UniqueIffClean(owner: string, name: string)
    requires SlashFree(owner) && SlashFree(name)
    ensures NameIsUnique(owner, name) <==> Clean(owner, name)
  {
    hide *;
    if Clean(owner, name) {
      CleanIsUnique(owner, name);
    } else {
      UncleanIsShared(owner, name);
    }
  }

  /** For instance `a/b__c` and `a__b/c` share a directory. */
  lemma CollidingIds()
    ensures FinalName("a/b__c") == FinalName("a__b/c") && "a/b__c" != "a__b/c"
  {
    hide FinalName;
    assert Join("a", "b__c") == "a/b__c" && Join("a__b", "c") == "a__b/c";
    FinalNameOfJoin("a", "b__c");
    FinalNameOfJoin("a__b", "c");
  }

  // ---- decoding -----------------------------------------------------------------------------

  function FirstGap(e: string): (i: nat)
    ensures i <= |e|
    ensures i < |e| ==> Gap(e, i)
    ensures forall k :: 0 <= k < i ==> !Gap(e, k)
  {
    if e == "" then 0
    else if Gap(e, 0) then 0
    else
      var i := FirstGap(e[1..]);
      assert forall k :: 0 < k < |e| ==> (Gap(e, k) <==> Gap(e[1..], k - 1));
      i + 1
  }

  /** The id a directory name stands for. */
  function IdOf(e: string): string {
    var i := FirstGap(e);
    if i + 2 <= |e| then Join(e[..i], e[i + 2..]) else e
  }

  lemma DecodesClean(owner: string, name: string)
    requires SlashFree(owner) && SlashFree(name) && Clean(owner, name)
    ensures IdOf(FinalName(Join(owner, name))) == Join(owner, name)
  {
    var e := owner + "__" + name;
    FinalNameOfJoin(owner, name);
    GapsOfClean(owner, name);
    assert Gap(e, |owner|);
    assert e[..|owner|] == owner && e[|owner| + 2..] == name;
  }

  // ---- final and temporary names ------------------------------------------------------------

  lemma TmpNameDetermines(a: string, b: string)
    requires TmpName(a) == TmpName(b)
    ensures FinalName(a) == FinalName(b)
  {
    assert FinalName(a) == TmpName(a)[..|TmpName(a)| - 4];
    assert FinalName(b) == TmpName(b)[..|TmpName(b)| - 4];
  }

  lemma TmpNameIsTmp(id: string)
    ensures IsTmp(TmpName(id))
  {
  }

  /** A finished entry is taken for a temporary one exactly when the repository's own name ends in `.tmp`. */
  lemma FinalIsTmpIff(owner: string, name: string)
    requires SlashFree(owner) && SlashFree(name)
    ensures IsTmp(FinalName(Join(owner, name))) <==> IsTmp(name)
  {
    FinalNameOfJoin(owner, name);
    var e := owner + "__" + name;
    if |name| >= 4 {
      assert e[|e| - 4..] == name[|name| - 4..];
    } else {
      assert |e| >= 4 ==> e[|e| - 4..][3 - |name|] == '_' && TMP_SUFFIX[3 - |name|] != '_';
    }
  }

  /** The ids the cache keeps apart: owner/name, clean, and not ending in `.tmp`. */
  ghost predicate Cacheable(id: string) {
    exists owner, name :: IsCleanPair(owner, name) && id == Join(owner, name)
  }

  predicate IsCleanPair(owner: string, name: string) {
    SlashFree(owner) && SlashFree(name) && Clean(owner, name) && !IsTmp(name)
  }

  /** On cacheable ids final names are injective with an explicit inverse, and never clash with a temporary name. */
  lemma CacheableNames(a: string, b: string)
    requires Cacheable(a) && Cacheable(b)
    ensures IdOf(FinalName(a)) == a && !IsTmp(FinalName(a))
    ensures FinalName(a) == FinalName(b) ==> a == b
    ensures TmpName(a) == TmpName(b) ==> a == b
    ensures FinalName(a) != TmpName(b)
  {
    var o1, n1 :| IsCleanPair(o1, n1) && a == Join(o1, n1);
    var o2, n2 :| IsCleanPair(o2, n2) && b == Join(o2, n2);
    DecodesClean(o1, n1);
    DecodesClean(o2, n2);
    FinalIsTmpIff(o1, n1);
    TmpNameIsTmp(b);
    if TmpName(a) == TmpName(b) {
      TmpNameDetermines(a, b);
    }
  }

  // ---- ids that never touch each other's directories ----------------------------------------

  predicate Apart(a: string, b: string) {
    FinalName(a) != FinalName(b) && FinalName(a) != TmpName(b) && TmpName(a) != FinalName(b)
  }

  lemma FinalIsNotOwnTmp(id: string)
    ensures FinalName(id) != TmpName(id)
  {
  }

  ghost predicate ApartFromAll(owner: string, name: string) {
    forall o, n :: SlashFree(o) && SlashFree(n) && !IsTmp(n) && !(o == owner && n == name) ==>
      Apart(Join(o, n), Join(owner, name))
  }

  /** Among the owner/name ids not ending in `.tmp`, an id keeps apart from all others exactly when it is clean. */
  lemma ApartIffClean(owner: string, name: string)
    requires SlashFree(owner) && SlashFree(name) && !IsTmp(name)
    ensures ApartFromAll(owner, name) <==> Clean(owner, name)
  {
    UniqueIffClean(owner, name);
    FinalIsTmpIff(owner, name);
    TmpNameIsTmp(Join(owner, name));
    forall o, n | SlashFree(o) && SlashFree(n)
      ensures IsTmp(FinalName(Join(o, n))) <==> IsTmp(n)
      ensures IsTmp(TmpName(Join(o, n)))
    {
      FinalIsTmpIff(o, n);
      TmpNameIsTmp(Join(o, n));
    }
    if !Clean(owner, name) {
      var o, n :| SlashFree(o) && SlashFree(n) && FinalName(Join(o, n)) == FinalName(Join(owner, name))
        && !(o == owner && n == name);
      assert !IsTmp(n);
    }
  }
}
