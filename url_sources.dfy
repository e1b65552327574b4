/**
 * `checkAndCreateUrlSource`: labels each seed URL by the first rule that
 * matches (homepage, product page, sub-category, top-level category) and
 * drops the rest. A URL that has no `/` left once its scheme is removed
 * makes `.match(/\//g)` return `null`, and reading its `.length` throws a
 * TypeError that ends the whole call.
 */
module UrlSources {
  import opened Wrappers
  import opened JsStrings

  /** The one URL labelled HOMEPAGE. */
  const HomepageUrl: string := "https://www2.hm.com/en_us/index.html"

  /** The path fragments that mark a sub-category page. */
  const SubcategoryMarkers: seq<string> := [
    "/products", "/new-arrivals", "/deals", "/seasonal-trending",
    "/campaigns/", "/concepts", "/selected/", "/shop-by-room", "/sale/"
  ]

  datatype Label = Homepage | Product | Subcat | Maincat

  /** A seed descriptor `{ url }`. */
  datatype Seed = Seed(url: string)

  /** A source record `{ url, userData: { label } }`. */
  datatype Source = Source(url: string, category: Label)

  /** What the classifier makes of one URL: a label, a warning and no source, or the TypeError. */
  datatype Verdict = Labelled(category: Label) | Unsupported | NoSlashMatch

  // ---------------------------------------------------------------- product pages

  predicate IsDigit(c: char) {
    '0' <= c <= '9'
  }

  /** `s[i..i+k]` exists and is made of ASCII digits. */
  predicate DigitsAt(s: string, i: nat, k: nat) {
    i + k <= |s| && forall j | i <= j < i + k :: IsDigit(s[j])
  }

  /** `/[0-9]{8,12}/.test(s)`: somewhere `s` holds a run of 8 to 12 digits. */
  predicate DigitRunTest(s: string) {
    exists i: nat, k: nat | i <= |s| && 8 <= k <= 12 :: DigitsAt(s, i, k)
  }

  /** `s` holds 8 consecutive digits somewhere. */
  ghost predicate HasEightDigits(s: string) {
    exists i: nat | i <= |s| :: DigitsAt(s, i, 8)
  }

  /** The regex is not anchored, so its upper bound of 12 never matters. */
  lemma DigitRunTestIff(s: string)
    ensures DigitRunTest(s) <==> HasEightDigits(s)
  {
    if DigitRunTest(s) {
      var i: nat, k: nat :| i <= |s| && 8 <= k <= 12 && DigitsAt(s, i, k);
      assert DigitsAt(s, i, 8);
    }
    if HasEightDigits(s) {
      var i: nat :| i <= |s| && DigitsAt(s, i, 8);
      assert 8 <= 8 <= 12 && DigitsAt(s, i, 8);
    }
  }

  // ---------------------------------------------------------------- sub-categories

  /** `subcats.some(el => url.includes(el))`. */
  predicate HasSubcategoryMarker(url: string) {
    exists j | 0 <= j < |SubcategoryMarkers| :: Includes(url, SubcategoryMarkers[j])
  }

  // ---------------------------------------------------------------- top-level categories

  /** Length of the match of `/http(s)?:\/\//` that starts at position `i` of `s`, or 0 if none does. */
  function SchemeMatchAt(s: string, i: nat): (n: nat)
    ensures n == 0 <==> !StartsAt(s, i, "http://") && !StartsAt(s, i, "https://")
    ensures n > 0 ==> i + n <= |s| && Occurrences(s[i..i + n], '/') == 2
  {
    if StartsAt(s, i, "https://") then
      assert s[i + 4] == 's';
      8
    else if StartsAt(s, i, "http://") then 7
    else 0
  }

  /** The leftmost position at or after `from` where the scheme pattern matches. */
  function FirstSchemeFrom(s: string, from: nat): (r: Option<nat>)
    decreases |s| - from
    ensures r.Some? ==> from <= r.value < |s| && SchemeMatchAt(s, r.value) > 0
    ensures r.Some? ==> forall j: nat | from <= j < r.value :: SchemeMatchAt(s, j) == 0
    ensures r.None? ==> forall j: nat | from <= j :: SchemeMatchAt(s, j) == 0
  {
    if from >= |s| then None
    else if SchemeMatchAt(s, from) > 0 then Some(from)
    else FirstSchemeFrom(s, from + 1)
  }

  /** `s` contains `http://` or `https://`. */
  predicate HasScheme(s: string) {
    Includes(s, "http://") || Includes(s, "https://")
  }

  /** The slashes the scheme accounts for: two when `s` contains one, none otherwise. */
  function SchemeSlashes(s: string): nat {
    if HasScheme(s) then 2 else 0
  }

  /** Where no scheme pattern matches, `s` contains neither `http://` nor `https://`. */
  lemma NoSchemeMatch(s: string)
    requires FirstSchemeFrom(s, 0).None?
    ensures !HasScheme(s)
  {
    forall i: nat | i <= |s| ensures !StartsAt(s, i, "http://") && !StartsAt(s, i, "https://") {
      assert SchemeMatchAt(s, i) == 0;
    }
  }

  /** Cutting out a piece that holds two slashes removes exactly two. */
  lemma CutSlashes(s: string, i: nat, n: nat)
    requires i + n <= |s| && Occurrences(s[i..i + n], '/') == 2
    ensures Occurrences(s[..i] + s[i + n..], '/') == Occurrences(s, '/') - 2
  {
    assert s == s[..i] + s[i..i + n] + s[i + n..];
  }

  /** `s.replace(/http(s)?:\/\//, '')`: the first scheme occurrence, wherever it is, is removed. */
  function StripScheme(s: string): (r: string)
    ensures !HasScheme(s) ==> r == s
    ensures Occurrences(r, '/') == Occurrences(s, '/') - SchemeSlashes(s)
  {
    match FirstSchemeFrom(s, 0)
    case None =>
      NoSchemeMatch(s);
      s
    case Some(i) =>
      var n := SchemeMatchAt(s, i);
      assert StartsAt(s, i, "http://") || StartsAt(s, i, "https://");
      CutSlashes(s, i, n);
      s[..i] + s[i + n..]
  }

  /**
   * The positions of `s` at or after `from` that hold a `/`, in increasing
   * order: the matches a global search for `/` finds from there on.
   */
  function SlashesFrom(s: string, from: nat): (r: seq<nat>)
    requires from <= |s|
    ensures forall j | 0 <= j < |r| :: from <= r[j] < |s| && s[r[j]] == '/'
    ensures forall j, k | 0 <= j < k < |r| :: r[j] < r[k]
    ensures forall i | from <= i < |s| && s[i] == '/' :: i in r
    decreases |s| - from
  {
    if from == |s| then []
    else if s[from] == '/' then [from] + SlashesFrom(s, from + 1)
    else SlashesFrom(s, from + 1)
  }

  /** There are as many positions as there are slashes from `from` on. */
  lemma {:induction false} SlashesFromCount(s: string, from: nat)
    requires from <= |s|
    ensures |SlashesFrom(s, from)| == Occurrences(s[from..], '/')
    decreases |s| - from
  {
    if from < |s| {
      SlashesFromCount(s, from + 1);
      assert s[from..] == [s[from]] + s[from + 1..];
    }
  }

  /**
   * `s.match(/\//g)`: the list of matches, one per `/` in order of position,
   * or `null` (None) when there is none.
   */
  function SlashMatches(s: string): (r: Option<seq<nat>>)
    ensures r.None? <==> Occurrences(s, '/') == 0
    ensures r.Some? ==> |r.value| == Occurrences(s, '/')
    ensures r.Some? ==> forall j | 0 <= j < |r.value| :: r.value[j] < |s| && s[r.value[j]] == '/'
    ensures r.Some? ==> forall i | 0 <= i < |s| && s[i] == '/' :: i in r.value
  {
    assert s[0..] == s;
    SlashesFromCount(s, 0);
    var matches := SlashesFrom(s, 0);
    if matches == [] then None else Some(matches)
  }

  // ---------------------------------------------------------------- the classifier

  /** The verdict the body of the loop reaches for one URL, by the first rule that matches. */
  function Classify(url: string): Verdict {
    if url == HomepageUrl then Labelled(Homepage)
    else if Includes(url, "productpage") || DigitRunTest(url) then Labelled(Product)
    else if HasSubcategoryMarker(url) then Labelled(Subcat)
    else match SlashMatches(StripScheme(url))
      case None => NoSlashMatch
      case Some(matches) => if |matches| <= 2 then Labelled(Maincat) else Unsupported
  }

  /**
   * The rules in order of precedence: the homepage exactly; then a product
   * page (`productpage`, or 8 digits in a row); then a sub-category marker;
   * then, counting the slashes left once a scheme is removed, a top-level
   * category for one or two, a dropped URL for more, and the TypeError for none.
   */
  lemma ClassifyRules(url: string)
    ensures url == HomepageUrl <==> Classify(url) == Labelled(Homepage)
    ensures url != HomepageUrl ==>
      (Classify(url) == Labelled(Product) <==> Includes(url, "productpage") || HasEightDigits(url))
    ensures url != HomepageUrl && !Includes(url, "productpage") && !HasEightDigits(url) ==>
      (Classify(url) == Labelled(Subcat) <==> HasSubcategoryMarker(url))
    ensures url != HomepageUrl && !Includes(url, "productpage") && !HasEightDigits(url) && !HasSubcategoryMarker(url) ==>
      var slashes := Occurrences(url, '/') - SchemeSlashes(url);
      (Classify(url) == Labelled(Maincat) <==> 1 <= slashes <= 2) &&
      (Classify(url) == Unsupported <==> slashes > 2) &&
      (Classify(url) == NoSlashMatch <==> slashes == 0)
  {
    DigitRunTestIff(url);
    var stripped := StripScheme(url);
  }

  // ---------------------------------------------------------------- the loop

  /**
   * The result of the loop of `checkAndCreateUrlSource(seeds)` when each URL
   * gets the verdict `classify` gives it: the sources, or the URL whose
   * TypeError ended the call. The source's loop is `SourcesOf(seeds, Classify)`;
   * the lemmas below hold whatever the per-URL rules are.
   */
  ghost function SourcesOf(seeds: seq<Seed>, classify: string -> Verdict): Result<seq<Source>, string> {
    if seeds == [] then Success([])
    else match SourcesOf(seeds[..|seeds| - 1], classify)
      case Failure(url) => Failure(url)
      case Success(sources) =>
        var url := seeds[|seeds| - 1].url;
        match classify(url)
        case Labelled(category) => Success(sources + [Source(url, category)])
        case Unsupported => Success(sources)
        case NoSlashMatch => Failure(url)
  }

  /** Once a prefix of the seeds has failed, later seeds do not change the result. */
  lemma {:induction false} FailurePersists(seeds: seq<Seed>, classify: string -> Verdict, k: nat)
    requires k <= |seeds| && SourcesOf(seeds[..k], classify).Failure?
    ensures SourcesOf(seeds, classify) == SourcesOf(seeds[..k], classify)
  {
    if k < |seeds| {
      var n := |seeds| - 1;
      assert seeds[..n][..k] == seeds[..k];
      FailurePersists(seeds[..n], classify, k);
    } else {
      assert seeds[..k] == seeds;
    }
  }

  /** `checkAndCreateUrlSource(startUrls)`: the `for...of` loop pushing onto `sources`. */
  method CheckAndCreateUrlSource(startUrls: seq<Seed>) returns (r: Result<seq<Source>, string>)
    ensures r == SourcesOf(startUrls, Classify)
  {
    var sources: seq<Source> := [];
    for i := 0 to |startUrls|
      invariant SourcesOf(startUrls[..i], Classify) == Success(sources)
    {
      var url := startUrls[i].url;
      assert startUrls[..i + 1][..i] == startUrls[..i];
      match Classify(url) {
        case Labelled(category) =>
          sources := sources + [Source(url, category)];
        case Unsupported =>
        case NoSlashMatch =>
          FailurePersists(startUrls, Classify, i + 1);
          return Failure(url);
      }
    }
    assert startUrls[..|startUrls|] == startUrls;
    return Success(sources);
  }

  /**
   * The sources are an order-preserving subsequence of the seeds: `idx` lists
   * the positions of the labelled seeds, in order; each source is its seed's
   * URL unchanged with that seed's label, and no labelled seed is skipped.
   */
  lemma {:induction false} SourcesAreLabelledSubsequence(seeds: seq<Seed>, classify: string -> Verdict) returns (idx: seq<nat>)
    requires SourcesOf(seeds, classify).Success?
    ensures var sources := SourcesOf(seeds, classify).value;
      |idx| == |sources| && |sources| <= |seeds| &&
      (forall j | 0 <= j < |idx| ::
         idx[j] < |seeds| && classify(seeds[idx[j]].url).Labelled? &&
         sources[j] == Source(seeds[idx[j]].url, classify(seeds[idx[j]].url).category)) &&
      (forall j, k | 0 <= j < k < |idx| :: idx[j] < idx[k]) &&
      (forall i | 0 <= i < |seeds| && classify(seeds[i].url).Labelled? :: i in idx)
  {
    if seeds == [] {
      idx := [];
    } else {
      var n := |seeds| - 1;
      var prefix := seeds[..n];
      assert forall i | 0 <= i < n :: prefix[i] == seeds[i];
      var before := SourcesAreLabelledSubsequence(prefix, classify);
      var sources := SourcesOf(prefix, classify).value;
      var verdict := classify(seeds[n].url);
      if verdict.Labelled? {
        assert SourcesOf(seeds, classify).value == sources + [Source(seeds[n].url, verdict.category)];
        idx := before + [n];
      } else {
        assert SourcesOf(seeds, classify).value == sources;
        idx := before;
      }
    }
  }

  /** The call succeeds exactly when no seed reaches the slash count with no `/` left. */
  lemma {:induction false} SourcesSucceedIff(seeds: seq<Seed>, classify: string -> Verdict)
    ensures SourcesOf(seeds, classify).Success? <==> forall i | 0 <= i < |seeds| :: classify(seeds[i].url) != NoSlashMatch
  {
    if seeds != [] {
      var n := |seeds| - 1;
      var prefix := seeds[..n];
      SourcesSucceedIff(prefix, classify);
      if SourcesOf(prefix, classify).Failure? {
        var j :| 0 <= j < n && classify(prefix[j].url) == NoSlashMatch;
        assert seeds[j] == prefix[j];
      } else {
        assert forall i | 0 <= i < n :: prefix[i] == seeds[i];
      }
    }
  }

  /** On failure the reported URL is that of the first seed with no `/` left. */
  lemma {:induction false} FailureIsFirstNoSlash(seeds: seq<Seed>, classify: string -> Verdict) returns (i: nat)
    requires SourcesOf(seeds, classify).Failure?
    ensures i < |seeds| && seeds[i].url == SourcesOf(seeds, classify).error
    ensures classify(seeds[i].url) == NoSlashMatch
    ensures forall j | 0 <= j < i :: classify(seeds[j].url) != NoSlashMatch
  {
    var n := |seeds| - 1;
    var prefix := seeds[..n];
    assert forall j | 0 <= j < n :: prefix[j] == seeds[j];
    if SourcesOf(prefix, classify).Failure? {
      i := FailureIsFirstNoSlash(prefix, classify);
    } else {
      SourcesSucceedIff(prefix, classify);
      i := n;
    }
  }
}
