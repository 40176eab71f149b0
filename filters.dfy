/**
 * The filter catalog of the capture studio and the two pure mappings the
 * studio applies to a filter name: the CSS class of the live preview and the
 * canvas filter parameters used when a shot is rendered
 * (src/components/PhotoStudio.jsx).
 */
module Filters {

  /** The filter tabs, in display order. */
  const CATALOG: seq<string> := ["90s", "2000s", "Noir", "Fisheye", "Rainbow", "Glitch", "Crosshatch"]

  /** The filter selected when the studio mounts. */
  const DEFAULT_FILTER: string := "90s"

  /** Reference table: the catalog names after lower-casing, index by index. */
  const LOWER_CATALOG: seq<string> := ["90s", "2000s", "noir", "fisheye", "rainbow", "glitch", "crosshatch"]

  /** Reference table: the preview CSS class of each catalog entry, index by index. */
  const CLASS_NAMES: seq<string> := ["_90s", "_2000s", "noir", "fisheye", "rainbow", "glitch", "crosshatch"]

  /** Reference table: the canvas filter parameters of each catalog entry, index by index. */
  const CANVAS_PARAMS: seq<string> := [
    "contrast(1.1) sepia(0.3) hue-rotate(-10deg) saturate(0.8) brightness(1.1)",
    "saturate(1.8) contrast(1.05) brightness(1.1) sepia(0.1) hue-rotate(10deg)",
    "grayscale(1) contrast(0.8) brightness(1.1)",
    "brightness(1.1)",
    "hue-rotate(90deg)",
    "contrast(1.5) saturate(2)",
    "grayscale(0.5) blur(1px)"
  ]

  predicate IsUpper(c: char) {
    'A' <= c <= 'Z'
  }

  predicate IsDigit(c: char) {
    '0' <= c <= '9'
  }

  /** Lower-cases one character (ASCII letters only). */
  function LowerChar(c: char): (d: char)
    ensures !IsUpper(d)
    ensures IsUpper(c) || d == c
  {
    if IsUpper(c) then (c as int - 'A' as int + 'a' as int) as char else c
  }

  /** `String.prototype.toLowerCase`, restricted to ASCII letters. */
  function ToLower(s: string): (r: string)
    ensures |r| == |s|
    ensures forall i :: 0 <= i < |s| ==> r[i] == LowerChar(s[i])
  {
    if s == [] then [] else [LowerChar(s[0])] + ToLower(s[1..])
  }

  /** `getFilterClass`: the CSS class that styles the live preview. */
  function FilterClass(filter: string): (r: string)
  {
    LoweredClass(ToLower(filter))
  }

  /** The `switch` of `getFilterClass`, on an already lower-cased name. */
  function LoweredClass(name: string): (r: string)
  {
    if name == "90s" then "_90s"
    else if name == "2000s" then "_2000s"
    else name
  }

  /** The `switch` at the top of `takePhoto`: the canvas filter parameters for a name. */
  function CanvasFilter(filter: string): (r: string)
    ensures r != "none" <==> ToLower(filter) in LOWER_CATALOG
  {
    LoweredCanvasFilter(ToLower(filter))
  }

  /** The `switch` of `takePhoto`, on an already lower-cased name. */
  function LoweredCanvasFilter(name: string): (r: string)
    ensures r != "none" <==> name in LOWER_CATALOG
  {
    if name == "noir" then "grayscale(1) contrast(0.8) brightness(1.1)"
    else if name == "90s" then "contrast(1.1) sepia(0.3) hue-rotate(-10deg) saturate(0.8) brightness(1.1)"
    else if name == "2000s" then "saturate(1.8) contrast(1.05) brightness(1.1) sepia(0.1) hue-rotate(10deg)"
    else if name == "rainbow" then "hue-rotate(90deg)"
    else if name == "glitch" then "contrast(1.5) saturate(2)"
    else if name == "crosshatch" then "grayscale(0.5) blur(1px)"
    else if name == "fisheye" then "brightness(1.1)"
    else "none"
  }

  /** Lower-casing twice is lower-casing once. */
  lemma LowerIdempotent(s: string)
    ensures ToLower(ToLower(s)) == ToLower(s)
  {
  }

  /** Lower-casing each catalog name gives the reference table. */
  lemma LowerCatalogNames(i: nat)
    requires i < |CATALOG|
    ensures ToLower(CATALOG[i]) == LOWER_CATALOG[i]
  {
    var s, t := CATALOG[i], LOWER_CATALOG[i];
    assert |s| == |t|;
    assert forall k :: 0 <= k < |s| ==> LowerChar(s[k]) == t[k];
    LowerPointwise(s, t);
  }

  /** A string whose characters are the lower-cased characters of `s` is `ToLower(s)`. */
  lemma LowerPointwise(s: string, t: string)
    requires |s| == |t|
    requires forall k :: 0 <= k < |s| ==> LowerChar(s[k]) == t[k]
    ensures ToLower(s) == t
  {
  }

  /**
   * The catalog has seven entries that differ even when case is ignored,
   * and the default selection is its first entry.
   */
  lemma CatalogWellFormed()
    ensures |CATALOG| == 7
    ensures CATALOG[0] == DEFAULT_FILTER && DEFAULT_FILTER in CATALOG
    ensures forall i, j :: 0 <= i < j < |CATALOG| ==> ToLower(CATALOG[i]) != ToLower(CATALOG[j])
    ensures forall i, j :: 0 <= i < j < |CATALOG| ==> CATALOG[i] != CATALOG[j]
  {
    forall i | 0 <= i < |CATALOG| ensures ToLower(CATALOG[i]) == LOWER_CATALOG[i] {
      LowerCatalogNames(i);
    }
    LowerNamesDistinct();
  }

  lemma LowerNamesDistinct()
    ensures forall i, j :: 0 <= i < j < |LOWER_CATALOG| ==> LOWER_CATALOG[i] != LOWER_CATALOG[j]
  {
  }

  /** Each catalog entry gets the preview class of the reference table. */
  lemma FilterClassOfCatalog(i: nat)
    requires i < |CATALOG|
    ensures FilterClass(CATALOG[i]) == CLASS_NAMES[i]
  {
    LowerCatalogNames(i);
  }

  /**
   * The preview class is the lower-cased name, prefixed with an underscore
   * exactly for the two names that start with a digit ("90s" and "2000s"):
   * a CSS class may not begin with a digit.
   */
  lemma FilterClassPrefix(filter: string)
    ensures FilterClass(filter) == ToLower(filter) || FilterClass(filter) == "_" + ToLower(filter)
    ensures FilterClass(filter) != ToLower(filter) <==> ToLower(filter) == "90s" || ToLower(filter) == "2000s"
  {
  }

  /** The preview class ignores case: it depends only on the lower-cased name. */
  lemma FilterClassIgnoresCase(a: string, b: string)
    requires ToLower(a) == ToLower(b)
    ensures FilterClass(a) == FilterClass(b)
    ensures FilterClass(ToLower(a)) == FilterClass(a)
  {
    LowerIdempotent(a);
  }

  /** The catalog entries get pairwise distinct preview classes, none starting with a digit. */
  lemma CatalogClassesDistinct()
    ensures forall i, j :: 0 <= i < j < |CATALOG| ==> FilterClass(CATALOG[i]) != FilterClass(CATALOG[j])
    ensures forall i :: 0 <= i < |CATALOG| ==> |FilterClass(CATALOG[i])| > 0 && !IsDigit(FilterClass(CATALOG[i])[0])
  {
    forall i | 0 <= i < |CATALOG| ensures FilterClass(CATALOG[i]) == CLASS_NAMES[i] {
      FilterClassOfCatalog(i);
    }
    ClassNamesDistinct();
  }

  lemma ClassNamesDistinct()
    ensures forall i, j :: 0 <= i < j < |CLASS_NAMES| ==> CLASS_NAMES[i] != CLASS_NAMES[j]
    ensures forall i :: 0 <= i < |CLASS_NAMES| ==> |CLASS_NAMES[i]| > 0 && !IsDigit(CLASS_NAMES[i][0])
  {
  }

  /** Each catalog entry gets the canvas parameters of the reference table. */
  lemma CanvasFilterOfCatalog(i: nat)
    requires i < |CATALOG|
    ensures CanvasFilter(CATALOG[i]) == CANVAS_PARAMS[i]
  {
    LowerCatalogNames(i);
    var name := LOWER_CATALOG[i];
    if i == 0 { assert name == "90s"; }
    else if i == 1 { assert name == "2000s"; }
    else if i == 2 { assert name == "noir"; }
    else if i == 3 { assert name == "fisheye"; }
    else if i == 4 { assert name == "rainbow"; }
    else if i == 5 { assert name == "glitch"; }
    else { assert name == "crosshatch"; }
  }

  /** The catalog entries get pairwise distinct canvas parameters, none of them "none". */
  lemma CatalogCanvasFiltersDistinct()
    ensures forall i :: 0 <= i < |CATALOG| ==> CanvasFilter(CATALOG[i]) != "none"
    ensures forall i, j :: 0 <= i < j < |CATALOG| ==> CanvasFilter(CATALOG[i]) != CanvasFilter(CATALOG[j])
  {
    forall i | 0 <= i < |CATALOG| ensures CanvasFilter(CATALOG[i]) == CANVAS_PARAMS[i] {
      CanvasFilterOfCatalog(i);
    }
    ParamsDistinct();
  }

  lemma ParamsDistinct()
    ensures forall i :: 0 <= i < |CANVAS_PARAMS| ==> CANVAS_PARAMS[i] != "none"
    ensures forall i, j :: 0 <= i < j < |CANVAS_PARAMS| ==> CANVAS_PARAMS[i] != CANVAS_PARAMS[j]
  {
  }

  /** The canvas parameters ignore case: they depend only on the lower-cased name. */
  lemma CanvasFilterIgnoresCase(a: string, b: string)
    requires ToLower(a) == ToLower(b)
    ensures CanvasFilter(a) == CanvasFilter(b)
    ensures CanvasFilter(ToLower(a)) == CanvasFilter(a)
  {
    LowerIdempotent(a);
  }

  /**
   * A name gets real canvas parameters exactly when it is a catalog name up to
   * case; every other name gets "none".
   */
  lemma CanvasFilterRecognizes(filter: string)
    ensures CanvasFilter(filter) != "none" <==> exists c :: c in CATALOG && ToLower(c) == ToLower(filter)
  {
    if CanvasFilter(filter) != "none" {
      var i :| 0 <= i < |LOWER_CATALOG| && LOWER_CATALOG[i] == ToLower(filter);
      LowerCatalogNames(i);
      assert CATALOG[i] in CATALOG;
    } else {
      forall c | c in CATALOG ensures ToLower(c) != ToLower(filter) {
        var i :| 0 <= i < |CATALOG| && CATALOG[i] == c;
        LowerCatalogNames(i);
      }
    }
  }
}
