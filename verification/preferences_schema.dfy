/** The dietary-preferences schema: an array of values of the diet
    preference enumeration, at most six of them, without repeats. */
module PreferencesSchema {
  import opened Wrappers
  import opened Issues

  /** The values of the diet preference enumeration, in declaration order. */
  const DietPrefs: seq<string> :=
    ["vegetarian", "vegan", "gluten_free", "diabetes", "nut_allergy", "low_fodmap"]

  const MaxPreferences := 6
  const TooManyMessage := "Maximum 6 dietary preferences allowed"
  const DuplicateMessage := "Duplicate preferences are not allowed"

  predicate IsDietPref(s: string) {
    s in DietPrefs
  }

  /** The refinement as the source writes it: the set of the values is as
      large as the array. */
  predicate SetSizeMatches(prefs: seq<string>) {
    |set p | p in prefs| == |prefs|
  }

  /** No value occurs twice. */
  predicate Distinct(prefs: seq<string>) {
    forall i, j :: 0 <= i < j < |prefs| ==> prefs[i] != prefs[j]
  }

  /** One issue per array element outside the enumeration, in array order,
      from position `from` on. */
  function EnumIssues(prefs: seq<string>, from: nat): (r: seq<Issue>)
    requires from <= |prefs|
    ensures r == [] <==> forall i :: from <= i < |prefs| ==> IsDietPref(prefs[i])
    ensures forall k :: 0 <= k < |r| ==> r[k].NotAnOption?
    decreases |prefs| - from
  {
    if from == |prefs| then []
    else (if IsDietPref(prefs[from]) then [] else [NotAnOption("preferences", from)]) + EnumIssues(prefs, from + 1)
  }

  /** The issues of the `preferences` field. The length check comes first;
      an element outside the enumeration aborts the array, so the
      duplicate refinement only runs when every element is a known value. */
  function PreferencesIssues(prefs: seq<string>): (r: seq<Issue>)
    ensures r == [] <==>
              |prefs| <= MaxPreferences && Distinct(prefs)
              && forall i :: 0 <= i < |prefs| ==> IsDietPref(prefs[i])
    ensures Issue("preferences", TooManyMessage) in r <==> |prefs| > MaxPreferences
    ensures Issue("preferences", DuplicateMessage) in r <==>
              (forall i :: 0 <= i < |prefs| ==> IsDietPref(prefs[i])) && !Distinct(prefs)
  {
    DistinctIffSetSizeMatches(prefs);
    var enumIssues := EnumIssues(prefs, 0);
    (if |prefs| > MaxPreferences then [Issue("preferences", TooManyMessage)] else [])
    + enumIssues
    + (if enumIssues == [] && !SetSizeMatches(prefs) then [Issue("preferences", DuplicateMessage)] else [])
  }

  /** Parses the preferences payload; `None` is a missing field or one that
      is not an array. It succeeds exactly on at most six known values
      without repeats, and then returns them unchanged. */
  function ParsePreferences(prefs: Option<seq<string>>): (r: Result<seq<string>, seq<Issue>>)
    ensures r.Success? <==>
              prefs.Some? && |prefs.value| <= MaxPreferences && Distinct(prefs.value)
              && forall i :: 0 <= i < |prefs.value| ==> IsDietPref(prefs.value[i])
    ensures r.Success? ==> r.value == prefs.value
    ensures r.Failure? ==> r.error != []
  {
    match prefs
    case None => Failure([WrongType("preferences")])
    case Some(p) =>
      DistinctIffSetSizeMatches(p);
      var issues := PreferencesIssues(p);
      if issues == [] then Success(p) else Failure(issues)
  }

  /** `new Set(prefs).size === prefs.length` holds exactly when no value
      repeats. */
  lemma {:induction false} DistinctIffSetSizeMatches(prefs: seq<string>)
    ensures SetSizeMatches(prefs) <==> Distinct(prefs)
    ensures |set p | p in prefs| <= |prefs|
    decreases |prefs|
  {
    if prefs != [] {
      var init := prefs[..|prefs| - 1];
      var last := prefs[|prefs| - 1];
      DistinctIffSetSizeMatches(init);
      assert (set p | p in prefs) == (set p | p in init) + {last} by {
        assert prefs == init + [last];
      }
      if last in init {
        var k :| 0 <= k < |init| && init[k] == last;
        assert prefs[k] == prefs[|prefs| - 1];
        assert (set p | p in prefs) == (set p | p in init);
      } else {
        if Distinct(init) {
          forall i, j | 0 <= i < j < |prefs| ensures prefs[i] != prefs[j] {
            if j == |prefs| - 1 { assert prefs[i] == init[i]; } else { assert prefs[i] == init[i] && prefs[j] == init[j]; }
          }
        }
        if Distinct(prefs) {
          forall i, j | 0 <= i < j < |init| ensures init[i] != init[j] {
            assert init[i] == prefs[i] && init[j] == prefs[j];
          }
        }
      }
    }
  }

  /** Six distinct known values at most: a list of known values without
      repeats can never exceed the maximum, so the length check only ever
      fires together with another issue. */
  lemma KnownDistinctAtMostSix(prefs: seq<string>)
    requires forall i :: 0 <= i < |prefs| ==> IsDietPref(prefs[i])
    requires Distinct(prefs)
    ensures |prefs| <= MaxPreferences
  {
    DistinctIffSetSizeMatches(prefs);
    var values := set p | p in prefs;
    var all := set p | p in DietPrefs;
    assert values <= all;
    SubsetSmaller(values, all);
    DistinctIffSetSizeMatches(DietPrefs);
    assert Distinct(DietPrefs);
  }

  /** A subset is no larger than its superset. */
  lemma {:induction false} SubsetSmaller<T>(a: set<T>, b: set<T>)
    requires a <= b
    ensures |a| <= |b|
    decreases |a|
  {
    if a != {} {
      var x :| x in a;
      SubsetSmaller(a - {x}, b - {x});
    }
  }

  /** The maximum is never the only complaint. */
  lemma TooManyNeverAlone(prefs: seq<string>)
    requires |prefs| > MaxPreferences
    ensures |PreferencesIssues(prefs)| >= 2
  {
    DistinctIffSetSizeMatches(prefs);
    if EnumIssues(prefs, 0) == [] {
      if SetSizeMatches(prefs) {
        KnownDistinctAtMostSix(prefs);
      }
    }
  }

  /** The empty list is accepted. */
  lemma EmptyAccepted()
    ensures ParsePreferences(Some([])) == Success([])
  {
  }
}
