/** Which logical volume names LVM keeps for itself (src/util.c, src/volumegroup.c). */
module LvmNames {
  predicate HasPrefix(s: string, prefix: string) {
    prefix <= s
  }

  predicate Contains(s: string, part: string) {
    exists i :: 0 <= i <= |s| - |part| && s[i..][..|part|] == part
  }

  predicate IsReserved(name: string) {
    || Contains(name, "_mlog") || Contains(name, "_mimage")
    || Contains(name, "_rimage") || Contains(name, "_rmeta")
    || Contains(name, "_tdata") || Contains(name, "_tmeta")
    || Contains(name, "_pmspare")
    || HasPrefix(name, "pvmove") || HasPrefix(name, "snapshot")
  }

  predicate IsPvmove(name: string) {
    HasPrefix(name, "pvmove")
  }

  predicate IsVisible(name: string) {
    !IsReserved(name)
  }

  predicate Splits(name: string, before: string, part: string, after: string) {
    name == before + part + after
  }

  lemma ContainsMeans(name: string, part: string)
    ensures Contains(name, part) <==> exists before, after :: Splits(name, before, part, after)
  {
    if Contains(name, part) {
      var i :| 0 <= i <= |name| - |part| && name[i..][..|part|] == part;
      assert Splits(name, name[..i], part, name[i..][|part|..]);
    }
    forall before, after | Splits(name, before, part, after)
      ensures Contains(name, part)
    {
      assert name[|before|..] == part + after;
      assert name[|before|..][..|part|] == part;
    }
  }

  /** The names that LVM keeps for itself: those with one of seven parts in them, and those that
      begin with one of two words. */
  lemma ReservedMeans(name: string)
    ensures IsReserved(name) <==>
            || (exists part, before, after ::
                  part in {"_mlog", "_mimage", "_rimage", "_rmeta", "_tdata", "_tmeta", "_pmspare"} &&
                  Splits(name, before, part, after))
            || (exists word, after :: word in {"pvmove", "snapshot"} && Splits(name, "", word, after))
  {
    forall part
      ensures Contains(name, part) <==> exists before, after :: Splits(name, before, part, after)
    {
      ContainsMeans(name, part);
    }
    forall word
      ensures HasPrefix(name, word) <==> exists after :: Splits(name, "", word, after)
    {
      if HasPrefix(name, word) { assert Splits(name, "", word, name[|word|..]); }
    }
  }
}
