/** Turning an application's display name into the id of its app target:
    lower-case letters and digits, with single underscores between the
    runs of anything else. */
module AppTargetUtils {
  import opened Common

  predicate IsIdChar(c: char) {
    'a' <= c <= 'z' || '0' <= c <= '9'
  }

  predicate IsSlugChar(c: char) {
    IsIdChar(c) || c == '_'
  }

  predicate NoDoubleUnderscore(s: string) {
    forall i :: 0 <= i < |s| - 1 ==> !(s[i] == '_' && s[i + 1] == '_')
  }

  /** The shape of a sanitized id: letters, digits and underscores, no
      underscore at either end and never two in a row. */
  predicate IsCanonical(s: string) {
    && (forall i :: 0 <= i < |s| ==> IsSlugChar(s[i]))
    && (s == [] || (s[0] != '_' && s[|s| - 1] != '_'))
    && NoDoubleUnderscore(s)
  }

  /** The letters and digits of a text, in order. */
  function IdChars(s: string): string
    decreases |s|
  {
    if |s| == 0 then []
    else if IsIdChar(s[0]) then [s[0]] + IdChars(s[1..])
    else IdChars(s[1..])
  }

  /** The text after its leading characters that are not letters or
      digits. */
  function DropNonId(s: string): (r: string)
    ensures |r| <= |s| && r == s[|s| - |r|..]
    ensures r == [] || IsIdChar(r[0])
    ensures IdChars(r) == IdChars(s)
    decreases |s|
  {
    if |s| > 0 && !IsIdChar(s[0]) then DropNonId(s[1..]) else s
  }

  /** `.replace(/[^a-z0-9]+/g, '_')`: every maximal run of characters other
      than letters and digits becomes one underscore. */
  function CollapseRuns(s: string): (r: string)
    ensures forall i :: 0 <= i < |r| ==> IsSlugChar(r[i])
    ensures NoDoubleUnderscore(r)
    ensures r == [] <==> s == []
    ensures r != [] ==> (r[0] == '_' <==> !IsIdChar(s[0]))
    ensures IdChars(r) == IdChars(s)
    decreases |s|
  {
    if |s| == 0 then []
    else if IsIdChar(s[0]) then
      var rest := CollapseRuns(s[1..]);
      var r := [s[0]] + rest;
      assert forall i :: 1 <= i < |r| ==> r[i] == rest[i - 1];
      assert r[1..] == rest;
      r
    else
      var rest := CollapseRuns(DropNonId(s[1..]));
      var r := "_" + rest;
      assert forall i :: 1 <= i < |r| ==> r[i] == rest[i - 1];
      assert r[1..] == rest;
      r
  }

  /** The text after its leading underscores. */
  function DropLeadingUnderscores(s: string): (r: string)
    ensures |r| <= |s| && r == s[|s| - |r|..]
    ensures r == [] || r[0] != '_'
    decreases |s|
  {
    if |s| > 0 && s[0] == '_' then DropLeadingUnderscores(s[1..]) else s
  }

  lemma {:induction false} DropLeadingKeepsIdChars(s: string)
    ensures IdChars(DropLeadingUnderscores(s)) == IdChars(s)
    decreases |s|
  {
    if |s| > 0 && s[0] == '_' {
      DropLeadingKeepsIdChars(s[1..]);
    }
  }

  lemma {:induction false} IdCharsOfUnderscoreSuffix(s: string, k: nat)
    requires k <= |s| && forall i :: k <= i < |s| ==> s[i] == '_'
    ensures IdChars(s) == IdChars(s[..k])
    decreases |s|
  {
    if |s| > 0 {
      if k == |s| {
        assert s[..k] == s;
      } else {
        IdCharsOfUnderscoreSuffix(s[1..], if k == 0 then 0 else k - 1);
        if k == 0 {
          assert s[..k] == [];
        } else {
          assert s[1..][..k - 1] == s[..k][1..];
        }
      }
    }
  }

  /** The text before its trailing underscores. */
  function DropTrailingUnderscores(s: string): (r: string)
    ensures |r| <= |s| && r == s[..|r|]
    ensures r == [] || r[|r| - 1] != '_'
    ensures forall i :: |r| <= i < |s| ==> s[i] == '_'
    decreases |s|
  {
    if |s| > 0 && s[|s| - 1] == '_' then DropTrailingUnderscores(s[..|s| - 1]) else s
  }

  /** `.replace(/^_+|_+$/g, '')`: no underscore left at either end. */
  function StripUnderscores(s: string): (r: string)
    ensures IdChars(r) == IdChars(s)
  {
    var a := DropLeadingUnderscores(s);
    var b := DropTrailingUnderscores(a);
    DropLeadingKeepsIdChars(s);
    IdCharsOfUnderscoreSuffix(a, |b|);
    b
  }

  /** Stripping keeps the slug characters and the single underscores, and
      leaves none at the ends. */
  lemma StripMakesCanonical(s: string)
    requires forall i :: 0 <= i < |s| ==> IsSlugChar(s[i])
    requires NoDoubleUnderscore(s)
    ensures IsCanonical(StripUnderscores(s))
  {
    var b := StripUnderscores(s);
    var off := |s| - |DropLeadingUnderscores(s)|;
    StripIsSlice(s);
    assert b == DropTrailingUnderscores(DropLeadingUnderscores(s));
    SlugSlice(s, off, b);
  }

  /** What stripping keeps is a slice of the text with no underscore at
      either end. */
  lemma StripIsSlice(s: string)
    ensures var off := |s| - |DropLeadingUnderscores(s)|;
      var b := DropTrailingUnderscores(DropLeadingUnderscores(s));
      && off + |b| <= |s|
      && (forall k :: 0 <= k < |b| ==> b[k] == s[off + k])
      && (b == [] || (b[0] != '_' && b[|b| - 1] != '_'))
  {
    var a := DropLeadingUnderscores(s);
    var off := |s| - |a|;
    var b := DropTrailingUnderscores(a);
    forall k | 0 <= k < |b|
      ensures b[k] == s[off + k]
    {
      assert b[k] == a[k];
    }
    if b != [] {
      assert b[0] == a[0];
    }
  }

  /** A slice of slug text is slug text. */
  lemma SlugSlice(s: string, i: nat, t: string)
    requires i + |t| <= |s| && forall k :: 0 <= k < |t| ==> t[k] == s[i + k]
    requires forall k :: 0 <= k < |s| ==> IsSlugChar(s[k])
    requires NoDoubleUnderscore(s)
    requires t == [] || (t[0] != '_' && t[|t| - 1] != '_')
    ensures IsCanonical(t)
  {
    forall k | 0 <= k < |t| ensures IsSlugChar(t[k]) {
      assert t[k] == s[i + k];
    }
    forall k | 0 <= k < |t| - 1 ensures !(t[k] == '_' && t[k + 1] == '_') {
      assert t[k] == s[i + k] && t[k + 1] == s[i + k + 1];
    }
  }

  /** `.replace(/_+/g, '_')`: every run of underscores becomes one. */
  function SquashUnderscores(s: string): (r: string)
    decreases |s|
  {
    if |s| == 0 then []
    else if s[0] == '_' then "_" + SquashUnderscores(DropLeadingUnderscores(s[1..]))
    else [s[0]] + SquashUnderscores(s[1..])
  }

  /** Squashing a text with no double underscore changes nothing. */
  lemma {:induction false} SquashWithoutDoubles(s: string)
    requires NoDoubleUnderscore(s)
    ensures SquashUnderscores(s) == s
    decreases |s|
  {
    if |s| > 0 {
      assert NoDoubleUnderscore(s[1..]) by {
        forall i | 0 <= i < |s[1..]| - 1 ensures !(s[1..][i] == '_' && s[1..][i + 1] == '_') {
          assert s[1..][i] == s[i + 1] && s[1..][i + 1] == s[i + 2];
        }
      }
      if s[0] == '_' {
        assert |s| > 1 ==> s[1] != '_';
        assert DropLeadingUnderscores(s[1..]) == s[1..];
      }
      SquashWithoutDoubles(s[1..]);
      assert [s[0]] + s[1..] == s;
    }
  }

  /** The three replacements in order. */
  function Sanitize(s: string): (r: string)
    ensures IsCanonical(r)
    ensures IdChars(r) == IdChars(s)
  {
    var collapsed := CollapseRuns(s);
    var stripped := StripUnderscores(collapsed);
    StripMakesCanonical(collapsed);
    SquashWithoutDoubles(stripped);
    SquashUnderscores(stripped)
  }

  /** The last replacement never changes anything: after the first two no
      two underscores are adjacent. */
  lemma SquashIsRedundant(s: string)
    ensures Sanitize(s) == StripUnderscores(CollapseRuns(s))
  {
    StripMakesCanonical(CollapseRuns(s));
    SquashWithoutDoubles(StripUnderscores(CollapseRuns(s)));
  }

  /** A canonical text sanitizes to itself. */
  lemma {:induction false} CollapseOfCanonicalPiece(s: string)
    requires forall i :: 0 <= i < |s| ==> IsSlugChar(s[i])
    requires NoDoubleUnderscore(s)
    requires s == [] || s[0] != '_' || |s| == 1 || s[1] != '_'
    ensures CollapseRuns(s) == s
    decreases |s|
  {
    if |s| > 0 {
      assert NoDoubleUnderscore(s[1..]) by {
        forall i | 0 <= i < |s[1..]| - 1 ensures !(s[1..][i] == '_' && s[1..][i + 1] == '_') {
          assert s[1..][i] == s[i + 1] && s[1..][i + 1] == s[i + 2];
        }
      }
      if !IsIdChar(s[0]) {
        assert |s| > 1 ==> IsIdChar(s[1]);
        assert DropNonId(s[1..]) == s[1..];
      }
      CollapseOfCanonicalPiece(s[1..]);
      assert [s[0]] + s[1..] == s;
    }
  }

  lemma SanitizeCanonical(s: string)
    requires IsCanonical(s)
    ensures Sanitize(s) == s
  {
    CollapseOfCanonicalPiece(s);
    SquashIsRedundant(s);
  }

  const FallbackPrefix := "app_target_"

  /** The tone used for an application that has none of its own. */
  const DefaultToneId := "polished"

  /** `normalizeAppTargetId`: trim, lower-case, sanitize; an empty result is
      replaced by `app_target_` and the dash-free `uuid` (a parameter for
      `crypto.randomUUID()`). */
  function NormalizeAppTargetId(name: string, uuid: string): (r: string)
    ensures Sanitize(ToLower(Trim(name))) != [] ==>
      r == Sanitize(ToLower(Trim(name))) && IsCanonical(r) && IdChars(r) == IdChars(ToLower(Trim(name)))
    ensures Sanitize(ToLower(Trim(name))) == [] ==>
      r == FallbackPrefix + Filter(uuid, (c: char) => c != '-') && '-' !in r[|FallbackPrefix|..]
  {
    var sanitized := Sanitize(ToLower(Trim(name)));
    if |sanitized| == 0 then
      var r := FallbackPrefix + Filter(uuid, (c: char) => c != '-');
      assert r[|FallbackPrefix|..] == Filter(uuid, (c: char) => c != '-');
      r
    else sanitized
  }

  /** The name sanitizes to nothing exactly when it has no letter or digit
      once lower-cased. */
  lemma {:induction false} EmptyIdIffNoIdChars(s: string)
    ensures Sanitize(s) == [] <==> IdChars(s) == []
  {
    var r := Sanitize(s);
    assert IdChars(r) == IdChars(s);
    if r != [] {
      CanonicalOpensWithIdChar(r);
    }
  }

  /** A non-empty canonical id opens with a letter or digit, so it has one. */
  lemma CanonicalOpensWithIdChar(r: string)
    requires IsCanonical(r) && r != []
    ensures IsIdChar(r[0]) && IdChars(r) != []
  {
    assert IsSlugChar(r[0]) && r[0] != '_';
    assert IdChars(r) == [r[0]] + IdChars(r[1..]);
  }

  lemma SpaceIgnoresCase(c: char)
    ensures IsSpace(ToLowerChar(c)) <==> IsSpace(c)
  {
  }

  lemma ToLowerEnds(s: string)
    requires |s| > 0
    ensures ToLower(s) == [ToLowerChar(s[0])] + ToLower(s[1..])
    ensures ToLower(s) == ToLower(s[..|s| - 1]) + [ToLowerChar(s[|s| - 1])]
  {
    ToLowerFirst(s);
    ToLowerLast(s);
  }

  lemma ToLowerFirst(s: string)
    requires |s| > 0
    ensures ToLower(s) == [ToLowerChar(s[0])] + ToLower(s[1..])
  {
    var a, b := ToLower(s), [ToLowerChar(s[0])] + ToLower(s[1..]);
    forall i | 0 <= i < |a|
      ensures a[i] == b[i]
    {
      if i > 0 {
        assert b[i] == ToLower(s[1..])[i - 1];
      }
    }
  }

  lemma ToLowerLast(s: string)
    requires |s| > 0
    ensures ToLower(s) == ToLower(s[..|s| - 1]) + [ToLowerChar(s[|s| - 1])]
  {
    var n := |s| - 1;
    var a, b := ToLower(s), ToLower(s[..n]) + [ToLowerChar(s[n])];
    forall i | 0 <= i < |a|
      ensures a[i] == b[i]
    {
      if i < n {
        assert b[i] == ToLower(s[..n])[i];
      }
    }
  }

  lemma {:induction false} TrimStartToLower(s: string)
    ensures ToLower(TrimStart(s)) == TrimStart(ToLower(s))
    decreases |s|
  {
    if |s| > 0 {
      ToLowerEnds(s);
      SpaceIgnoresCase(s[0]);
      var l := ToLower(s);
      assert l[0] == ToLowerChar(s[0]) && l[1..] == ToLower(s[1..]);
      if IsSpace(s[0]) {
        assert TrimStart(s) == TrimStart(s[1..]);
        assert TrimStart(l) == TrimStart(l[1..]);
        TrimStartToLower(s[1..]);
      } else {
        assert TrimStart(s) == s;
        assert TrimStart(l) == l;
      }
    }
  }

  lemma {:induction false} TrimEndToLower(s: string)
    ensures ToLower(TrimEnd(s)) == TrimEnd(ToLower(s))
    decreases |s|
  {
    if |s| > 0 {
      ToLowerEnds(s);
      SpaceIgnoresCase(s[|s| - 1]);
      var l := ToLower(s);
      assert l[|l| - 1] == ToLowerChar(s[|s| - 1]) && l[..|l| - 1] == ToLower(s[..|s| - 1]);
      if IsSpace(s[|s| - 1]) {
        assert TrimEnd(s) == TrimEnd(s[..|s| - 1]);
        assert TrimEnd(l) == TrimEnd(l[..|l| - 1]);
        TrimEndToLower(s[..|s| - 1]);
      } else {
        assert TrimEnd(s) == s;
        assert TrimEnd(l) == l;
      }
    }
  }

  /** Lower-casing and trimming commute. */
  lemma TrimToLower(s: string)
    ensures ToLower(Trim(s)) == Trim(ToLower(s))
  {
    TrimStartToLower(s);
    TrimEndToLower(TrimStart(s));
  }

  /** Names that differ only in letter case get the same id. */
  lemma NormalizeIgnoresCase(a: string, b: string, uuid: string)
    requires EqualsIgnoreCase(a, b)
    ensures NormalizeAppTargetId(a, uuid) == NormalizeAppTargetId(b, uuid)
  {
    TrimToLower(a);
    TrimToLower(b);
    assert ToLower(Trim(a)) == ToLower(Trim(b));
  }

  lemma {:induction false} TrimStartAppend(s: string, t: string)
    requires !IsBlank(s)
    ensures TrimStart(s + t) == TrimStart(s) + t
    decreases |s|
  {
    assert (s + t)[0] == s[0];
    if IsSpace(s[0]) {
      assert (s + t)[1..] == s[1..] + t;
      assert !IsBlank(s[1..]) by {
        var i :| 0 <= i < |s| && !IsSpace(s[i]);
        assert s[1..][i - 1] == s[i];
      }
      TrimStartAppend(s[1..], t);
    }
  }

  /** Trimming ignores one space on either side. */
  lemma TrimPadded(name: string)
    ensures Trim(" " + name + " ") == Trim(name)
  {
    var padded := " " + name + " ";
    TrimStartAfterSpace(name + " ");
    assert padded == " " + (name + " ");
    if IsBlank(name) {
      BlankWithSpace(name);
    } else {
      TrimStartAppend(name, " ");
      TrimEndBeforeSpace(TrimStart(name));
    }
  }

  lemma TrimStartAfterSpace(s: string)
    ensures TrimStart(" " + s) == TrimStart(s)
  {
    assert (" " + s)[1..] == s;
  }

  lemma TrimEndBeforeSpace(s: string)
    ensures TrimEnd(s + " ") == TrimEnd(s)
  {
    var t := s + " ";
    assert t[..|t| - 1] == s;
  }

  /** A blank name, with or without a trailing space, trims to nothing. */
  lemma BlankWithSpace(name: string)
    requires IsBlank(name)
    ensures Trim(name + " ") == [] && Trim(name) == []
  {
    assert IsBlank(name + " ");
    TrimStartBlank(name);
    TrimStartBlank(name + " ");
  }

  /** Whitespace around a name does not change its id. */
  lemma NormalizeIgnoresSurroundingSpace(name: string, uuid: string)
    ensures NormalizeAppTargetId(" " + name + " ", uuid) == NormalizeAppTargetId(name, uuid)
  {
    TrimPadded(name);
  }

  lemma LowerOfSlug(s: string)
    requires forall i :: 0 <= i < |s| ==> IsSlugChar(s[i])
    ensures ToLower(s) == s
  {
  }

  /** Normalizing an id that was not replaced by the fallback gives it
      back. */
  lemma NormalizeIdempotent(name: string, uuid: string, uuid2: string)
    requires Sanitize(ToLower(Trim(name))) != []
    ensures var id := NormalizeAppTargetId(name, uuid);
      NormalizeAppTargetId(id, uuid2) == id
  {
    var id := Sanitize(ToLower(Trim(name)));
    assert NormalizeAppTargetId(name, uuid) == id;
    CanonicalIsFixed(id);
  }

  /** A canonical id is unchanged by trimming, lower-casing and
      sanitizing. */
  lemma CanonicalIsFixed(id: string)
    requires IsCanonical(id)
    ensures Trim(id) == id && ToLower(id) == id && Sanitize(id) == id
  {
    assert Trim(id) == id by {
      if id != [] {
        assert IsSlugChar(id[0]) && IsSlugChar(id[|id| - 1]);
      }
      TrimOfTrimmed(id);
    }
    assert ToLower(id) == id by {
      LowerOfSlug(id);
    }
    assert Sanitize(id) == id by {
      SanitizeCanonical(id);
    }
  }
}
