/** Worked cases of the URL classifier, one per outcome. */
module UrlSourceExamples {
  import opened JsStrings
  import opened UrlSources

  /** A string in which no two digits are adjacent has no run of 8 digits. */
  lemma NoDigitRun(s: string)
    requires forall j | 0 <= j < |s| - 1 :: !IsDigit(s[j]) || !IsDigit(s[j + 1])
    ensures !DigitRunTest(s) && !HasEightDigits(s)
  {
    forall i: nat, k: nat | i <= |s| && 8 <= k <= 12 ensures !DigitsAt(s, i, k) {
      if i + k <= |s| {
        assert !IsDigit(s[i]) || !IsDigit(s[i + 1]);
      }
    }
    DigitRunTestIff(s);
  }

  /** A string in which the first two characters of `sub` never stand side by side does not include `sub`. */
  lemma NoPairNotIncluded(s: string, sub: string)
    requires |sub| >= 2
    requires forall i | 0 <= i < |s| - 1 :: s[i] != sub[0] || s[i + 1] != sub[1]
    ensures !Includes(s, sub)
  {
    forall i: nat | i <= |s| ensures !StartsAt(s, i, sub) {
      if i + |sub| <= |s| {
        assert s[i..i + |sub|][0] == s[i] && s[i..i + |sub|][1] == s[i + 1];
      }
    }
  }

  /** A string where no marker's first two characters stand side by side has no sub-category marker. */
  lemma NoMarker(s: string)
    requires forall j, i | 0 <= j < |SubcategoryMarkers| && 0 <= i < |s| - 1 ::
      s[i] != SubcategoryMarkers[j][0] || s[i + 1] != SubcategoryMarkers[j][1]
    ensures !HasSubcategoryMarker(s)
  {
    forall j | 0 <= j < |SubcategoryMarkers| ensures !Includes(s, SubcategoryMarkers[j]) {
      NoPairNotIncluded(s, SubcategoryMarkers[j]);
    }
  }

  /** A product page by its name, although its digit run is too short. */
  lemma ProductExample(u: string)
    requires u == "https://x.com/en_us/productpage.123456.html"
    ensures Classify(u) == Labelled(Product)
  {
    var head, tail := "https://x.com/en_us/", ".123456.html";
    assert u == head + "productpage" + tail;
    assert |head| == 20;
    assert StartsAt(u, 20, "productpage");
    ClassifyRules(u);
  }

  /** A sub-category page by its `/sale/` marker. */
  lemma SubcatExample(u: string)
    requires u == "https://x.com/en_us/sale/abc"
    ensures Classify(u) == Labelled(Subcat)
  {
    NoDigitRun(u);
    NoPairNotIncluded(u, "productpage");
    assert StartsAt(u, 19, "/sale/");
    assert Includes(u, SubcategoryMarkers[8]);
    ClassifyRules(u);
  }

  /** A URL that starts with `https://` has a scheme, which accounts for two slashes. */
  lemma SchemeSlashesHttps(u: string)
    requires |u| >= 8 && u[..8] == "https://"
    ensures SchemeSlashes(u) == 2
  {
    assert StartsAt(u, 0, "https://");
  }

  /** The slash count of the top-level category example. */
  lemma MaincatSlashes(u: string)
    requires u == "https://hm.com/men"
    ensures Occurrences(u, '/') == 3
  {
  }

  /** One slash left once the scheme is removed: a top-level category. */
  lemma MaincatExample(u: string)
    requires u == "https://hm.com/men"
    ensures Classify(u) == Labelled(Maincat)
  {
    NoDigitRun(u);
    NoPairNotIncluded(u, "productpage");
    NoMarker(u);
    SchemeSlashesHttps(u);
    MaincatSlashes(u);
    ClassifyRules(u);
  }

  /** The slash count of the dropped-URL example. */
  lemma DroppedSlashes(u: string)
    requires u == "https://hm.com/a/b/e"
    ensures Occurrences(u, '/') == 5
  {
  }

  /** Three slashes left once the scheme is removed: the URL is dropped with a warning. */
  lemma DroppedExample(u: string)
    requires u == "https://hm.com/a/b/e"
    ensures Classify(u) == Unsupported
  {
    NoDigitRun(u);
    NoPairNotIncluded(u, "productpage");
    NoMarker(u);
    SchemeSlashesHttps(u);
    DroppedSlashes(u);
    ClassifyRules(u);
  }

  /** The slash count of the bare host name example: only the scheme's two. */
  lemma NoSlashSlashes(u: string)
    requires u == "https://www2.hm.com"
    ensures Occurrences(u, '/') == 2
  {
  }

  /** The site's bare host name, with nothing after it, reaches the TypeError. */
  lemma NoSlashExample(u: string)
    requires u == "https://www2.hm.com"
    ensures Classify(u) == NoSlashMatch
  {
    NoDigitRun(u);
    NoPairNotIncluded(u, "productpage");
    NoMarker(u);
    SchemeSlashesHttps(u);
    NoSlashSlashes(u);
    ClassifyRules(u);
  }
}
