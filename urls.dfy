/**
  URL construction: the `$vin` substitution and base-URL routing of
  `_make_url`, and the two base URLs `getHomeRegion` derives from the home
  region's `baseUri`.
 */
module Urls {
  import opened Text

  const VinPlaceholder := "$vin"
  const ApiMarker := "/api"
  /** The home region every account starts from; its auth base is a fixed host. */
  const DefaultRegion := "https://mal-1a.prd.ece.vwg-connect.com/api"
  const DefaultAuthBase := "https://msg.volkswagen.de"

  /** `re.sub('\$vin', vin, ref)`: every literal `$vin` becomes `vin`. */
  function SubstituteVin(ref: string, vin: string): (path: string)
    ensures path == Join(Split(ref, VinPlaceholder), vin)
  {
    ReplaceIsSplitJoin(ref, VinPlaceholder, vin);
    Replace(ref, VinPlaceholder, vin)
  }

  /** `_make_url`: absolute URLs pass through, rights lookups go to the SPIN base,
      everything else to the home-region base. */
  function MakeUrl(spinRef: string, authRef: string, ref: string, vin: string,
                   urljoin: (string, string) -> string): string
  {
    var path := SubstituteVin(ref, vin);
    if Contains(path, "://") then path
    else if Contains(path, "rolesrights") then urljoin(spinRef, path)
    else urljoin(authRef, path)
  }

  /** The three routes of `_make_url`, stated on the pieces of the path around `$vin`. */
  lemma MakeUrlRoutes(spinRef: string, authRef: string, ref: string, vin: string,
                      urljoin: (string, string) -> string)
    ensures var path := Join(Split(ref, VinPlaceholder), vin);
      var url := MakeUrl(spinRef, authRef, ref, vin, urljoin);
      && (Contains(path, "://") ==> url == path)
      && (!Contains(path, "://") && Contains(path, "rolesrights") ==> url == urljoin(spinRef, path))
      && (!Contains(path, "://") && !Contains(path, "rolesrights") ==> url == urljoin(authRef, path))
  {
  }

  /** A path without the placeholder is not changed by the substitution. */
  lemma SubstituteVinAbsent(ref: string, vin: string)
    requires !Contains(ref, VinPlaceholder)
    ensures SubstituteVin(ref, vin) == ref
  {
    ReplaceAbsent(ref, VinPlaceholder, vin);
  }

  /** With the default `vin=''` a placeholder is simply deleted: the text
      around it is concatenated. */
  lemma DefaultVinDeletes(ref: string, prefix: string, suffix: string)
    requires !Contains(prefix, VinPlaceholder) && !Contains(suffix, VinPlaceholder)
    requires ref == prefix + VinPlaceholder + suffix
    ensures SubstituteVin(ref, "") == prefix + suffix
  {
    assert Split(ref, VinPlaceholder) == [prefix, suffix] by {
      SplitPrefix(prefix, suffix, VinPlaceholder);
      SplitAbsent(suffix, VinPlaceholder);
    }
    assert Join([prefix, suffix], "") == prefix + suffix by {
      assert [prefix, suffix][1..] == [suffix];
    }
  }

  // ---------------------------------------------------------------------
  // Home region

  /** The SPIN base: the `baseUri` cut before its first `/api`. */
  function SpinBase(content: string): string
  {
    Split(content, ApiMarker)[0]
  }

  /** The home-region base: the SPIN base with `mal-` hosts turned into `fal-`
      hosts, except that the default region maps to its own fixed host. */
  function AuthBase(content: string): string
  {
    if content == DefaultRegion then DefaultAuthBase
    else Replace(SpinBase(content), "mal-", "fal-")
  }

  /** The SPIN base is `baseUri` truncated before the first `/api`. */
  lemma SpinBaseTruncates(content: string)
    ensures var spin := SpinBase(content);
      && StartsWith(content, spin)
      && !Contains(spin, ApiMarker)
      && (Contains(content, ApiMarker) ==> StartsWith(content, spin + ApiMarker))
      && (!Contains(content, ApiMarker) ==> spin == content)
  {
    SplitFirstPiece(content, ApiMarker);
  }

  /** Outside the default region, the home-region base is the SPIN base with
      every `mal-` replaced by `fal-`, and no `mal-` is left in it. */
  lemma AuthBaseDerivation(content: string)
    requires content != DefaultRegion
    ensures AuthBase(content) == Join(Split(SpinBase(content), "mal-"), "fal-")
    ensures !Contains(AuthBase(content), "mal-")
    ensures !Contains(SpinBase(content), "mal-") ==> AuthBase(content) == SpinBase(content)
  {
    ReplaceIsSplitJoin(SpinBase(content), "mal-", "fal-");
    MalReplacedEverywhere(SpinBase(content));
    if !Contains(SpinBase(content), "mal-") {
      ReplaceAbsent(SpinBase(content), "mal-", "fal-");
    }
  }

  /** After replacing `mal-` by `fal-`, a text begins with a word free of `f`
      only if it began with that word before. */
  lemma {:induction false} ReplaceKeepsPrefix(t: string, w: string)
    requires forall i :: 0 <= i < |w| ==> w[i] != 'f'
    requires StartsWith(Replace(t, "mal-", "fal-"), w)
    ensures StartsWith(t, w)
    decreases |w|
  {
    if w != "" {
      var r := Replace(t, "mal-", "fal-");
      assert r[0] == w[0] != 'f';
      assert t != "";
      ReplaceFirstChar(t);
      assert !StartsWith(t, "mal-");
      assert r == [t[0]] + Replace(t[1..], "mal-", "fal-");
      assert StartsWith(Replace(t[1..], "mal-", "fal-"), w[1..]) by {
        assert r[1..][..|w| - 1] == r[..|w|][1..];
      }
      ReplaceKeepsPrefix(t[1..], w[1..]);
      assert t[..|w|] == [t[0]] + t[1..][..|w| - 1];
    }
  }

  /** `fal-` in front of a text free of `mal-` does not create one. */
  lemma FalPrefixAddsNoMal(tail: string)
    requires !Contains(tail, "mal-")
    ensures !Contains("fal-" + tail, "mal-")
  {
    var t1 := ['-'] + tail;
    var t2 := ['l'] + t1;
    var t3 := ['a'] + t2;
    var t4 := ['f'] + t3;
    assert !Contains(t1, "mal-") by {
      ContainsCons('-', tail, "mal-");
      assert t1[0] != "mal-"[0];
    }
    assert !Contains(t2, "mal-") by {
      ContainsCons('l', t1, "mal-");
      assert t2[0] != "mal-"[0];
    }
    assert !Contains(t3, "mal-") by {
      ContainsCons('a', t2, "mal-");
      assert t3[0] != "mal-"[0];
    }
    assert !Contains(t4, "mal-") by {
      ContainsCons('f', t3, "mal-");
      assert t4[0] != "mal-"[0];
    }
    assert "fal-" + tail == t4;
  }

  /** Replacing `mal-` by `fal-` leaves no `mal-` behind. */
  lemma {:induction false} MalReplacedEverywhere(s: string)
    ensures !Contains(Replace(s, "mal-", "fal-"), "mal-")
    decreases |s|
  {
    if s == "" {
    } else if StartsWith(s, "mal-") {
      MalReplacedEverywhere(s[4..]);
      FalPrefixAddsNoMal(Replace(s[4..], "mal-", "fal-"));
    } else {
      MalReplacedEverywhere(s[1..]);
      MalReplacedStep(s);
    }
  }

  /** The first character after replacing `mal-` by `fal-`. */
  lemma ReplaceFirstChar(t: string)
    requires t != ""
    ensures Replace(t, "mal-", "fal-") != ""
    ensures Replace(t, "mal-", "fal-")[0] == if StartsWith(t, "mal-") then 'f' else t[0]
  {
  }

  /** The step of MalReplacedEverywhere for a text not starting with `mal-`. */
  lemma MalReplacedStep(s: string)
    requires s != "" && !StartsWith(s, "mal-")
    requires !Contains(Replace(s[1..], "mal-", "fal-"), "mal-")
    ensures !Contains(Replace(s, "mal-", "fal-"), "mal-")
  {
    var tail := Replace(s[1..], "mal-", "fal-");
    assert s == [s[0]] + s[1..];
    assert Replace(s, "mal-", "fal-") == [s[0]] + tail;
    ContainsCons(s[0], tail, "mal-");
    StartsWithCons(s[0], tail, "mal-");
    StartsWithCons(s[0], s[1..], "mal-");
    if StartsWith(tail, "al-") {
      ReplaceKeepsPrefix(s[1..], "al-");
    }
  }
}
