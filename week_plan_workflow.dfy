/**
 * WeekPlanWorkflow: the three-step wizard that collects the preferences for
 * a new week plan (the vibe; ingredients to use up and to avoid; how many
 * meals, on which days and how much time) and hands them on at the end.
 */
module WeekPlanWorkflow {
  import opened Wrappers
  import opened Text
  import opened Lists
  import opened Types

  const TotalSteps := 3

  /** `map(s => s.trim()).filter(Boolean)`: the trimmed pieces that are not empty. */
  function CleanPieces(pieces: seq<string>): (r: seq<string>)
    ensures |r| <= |pieces|
    ensures forall x :: x in r ==> x != [] && !IsWhitespace(x[0]) && !IsWhitespace(x[|x| - 1])
  {
    if pieces == [] then []
    else
      TidyTrimmed(pieces[0]);
      Tidy(pieces[0]) + CleanPieces(pieces[1..])
  }

  /** What one piece contributes is non-empty and has no whitespace at either end. */
  lemma TidyTrimmed(x: string)
    ensures forall y :: y in Tidy(x) ==> y != [] && !IsWhitespace(y[0]) && !IsWhitespace(y[|y| - 1])
  {
    if Trim(x) != [] {
      assert Tidy(x) == [Trim(x)];
    }
  }

  /** An entry of the avoid list as the parser produces it. */
  predicate CleanEntry(x: string) {
    x != [] && ',' !in x && !IsWhitespace(x[0]) && !IsWhitespace(x[|x| - 1])
  }

  /** What trim keeps is a piece of the original: it adds no character. */
  lemma TrimSubset(s: string)
    ensures forall c :: c in Trim(s) ==> c in s
  {
    var t := Trim(s);
    if t != [] {
      var lo, hi := SkipSpaces(s, 0), SkipSpacesBack(s, |s|);
      forall c | c in t ensures c in s {
        var k :| 0 <= k < |t| && t[k] == c;
        assert s[lo + k] == c;
      }
    }
  }

  lemma {:induction false} CleanPiecesNoComma(pieces: seq<string>)
    requires forall p :: p in pieces ==> ',' !in p
    ensures forall x :: x in CleanPieces(pieces) ==> ',' !in x
  {
    if pieces != [] {
      CleanPiecesNoComma(pieces[1..]);
      TrimSubset(pieces[0]);
    }
  }

  /** The avoid textarea's onChange: split on ',', trim every piece, drop the empty ones. */
  function ParseAvoidList(text: string): (r: seq<string>)
    ensures forall x :: x in r ==> CleanEntry(x)
  {
    var pieces := Split(text, ',');
    CleanPiecesNoComma(pieces);
    CleanPieces(pieces)
  }

  /** The avoid textarea's value: the list joined with ", ". */
  function AvoidText(list: seq<string>): string {
    Join(list, ", ")
  }

  /* ---- trimming a leading space ---- */

  lemma {:induction false} SkipSpacesShift(a: string, i: nat)
    requires i <= |a|
    ensures SkipSpaces(" " + a, i + 1) == SkipSpaces(a, i) + 1
    decreases |a| - i
  {
    var s := " " + a;
    if i < |a| {
      assert s[i + 1] == a[i];
      if IsWhitespace(a[i]) {
        SkipSpacesShift(a, i + 1);
      }
    }
  }

  lemma {:induction false} SkipSpacesBackShift(a: string, j: nat)
    requires j <= |a| && SkipSpacesBack(a, j) > 0
    ensures SkipSpacesBack(" " + a, j + 1) == SkipSpacesBack(a, j) + 1
  {
    var s := " " + a;
    assert s[j] == a[j - 1];
    if IsWhitespace(a[j - 1]) {
      SkipSpacesBackShift(a, j - 1);
    }
  }

  /** A leading space makes no difference to trim. */
  lemma TrimLeadingSpace(a: string)
    ensures Trim(" " + a) == Trim(a)
  {
    if IsBlank(a) {
      BlankLeadingSpace(a);
    } else {
      TrimLeadingSpaceNonBlank(a);
    }
  }

  lemma BlankLeadingSpace(a: string)
    requires IsBlank(a)
    ensures IsBlank(" " + a)
  {
    var s := " " + a;
    forall k | 0 <= k < |s| ensures IsWhitespace(s[k]) {
      if k > 0 {
        assert s[k] == a[k - 1];
      }
    }
  }

  lemma TrimLeadingSpaceNonBlank(a: string)
    requires !IsBlank(a)
    ensures Trim(" " + a) == Trim(a)
  {
    var lo, hi := SkipSpaces(a, 0), SkipSpacesBack(a, |a|);
    NonBlankBounds(a);
    LeadingSpaceBounds(a);
    TrimSlice(a, lo, hi);
    TrimSlice(" " + a, lo + 1, hi + 1);
    ConsSlice(a, lo, hi);
  }

  lemma NonBlankBounds(a: string)
    requires !IsBlank(a)
    ensures SkipSpaces(a, 0) < |a| && SkipSpaces(a, 0) < SkipSpacesBack(a, |a|)
  {
    var k :| 0 <= k < |a| && !IsWhitespace(a[k]);
  }

  /** A leading space moves both trim bounds of a non-blank string one place on. */
  lemma LeadingSpaceBounds(a: string)
    requires SkipSpaces(a, 0) < SkipSpacesBack(a, |a|)
    ensures SkipSpaces(" " + a, 0) == SkipSpaces(a, 0) + 1
    ensures SkipSpacesBack(" " + a, |a| + 1) == SkipSpacesBack(a, |a|) + 1
  {
    SkipSpacesShift(a, 0);
    assert (" " + a)[0] == ' ';
    SkipSpacesBackShift(a, |a|);
  }

  lemma TrimSlice(s: string, lo: nat, hi: nat)
    requires lo == SkipSpaces(s, 0) < |s| && hi == SkipSpacesBack(s, |s|)
    ensures Trim(s) == s[lo..hi]
  {
  }

  lemma ConsSlice(a: string, lo: nat, hi: nat)
    requires lo <= hi <= |a|
    ensures (" " + a)[lo + 1..hi + 1] == a[lo..hi]
  {
  }

  /** The entry one piece contributes: its trim, unless that is empty. */
  function Tidy(x: string): seq<string> {
    if Trim(x) == [] then [] else [Trim(x)]
  }

  lemma TidyLeadingSpace(x: string)
    ensures Tidy(" " + x) == Tidy(x)
  {
    TrimLeadingSpace(x);
  }

  lemma CleanCons(x: string, ps: seq<string>)
    ensures CleanPieces([x] + ps) == Tidy(x) + CleanPieces(ps)
  {
    assert ([x] + ps)[1..] == ps;
  }

  /** A space in front of the first piece is trimmed away with the rest of its whitespace. */
  lemma CleanLeadingSpace(x: string, tail: seq<string>)
    ensures CleanPieces([" " + x] + tail) == CleanPieces([x] + tail)
  {
    TidyLeadingSpace(x);
    CleanCons(" " + x, tail);
    CleanCons(x, tail);
  }

  /** The pieces of `head, rest` are `head` and the pieces of ` rest`, whose first one starts with the space. */
  lemma SplitCommaSpace(head: string, rest: string)
    requires ',' !in head
    ensures var p := Split(rest, ',');
      Split(head + ", " + rest, ',') == [head] + ([" " + p[0]] + p[1..])
  {
    assert head + ", " + rest == head + [','] + (" " + rest);
    SplitAt(head, " " + rest, ',');
    SplitPrefix(" ", rest, ',');
  }

  lemma {:induction false} CleanSplitJoin(list: seq<string>)
    requires forall x :: x in list ==> CleanEntry(x)
    ensures CleanPieces(Split(Join(list, ", "), ',')) == list
  {
    if |list| == 0 {
    } else if |list| == 1 {
      assert CleanEntry(list[0]);
      SplitFree(list[0], ',');
      TrimOfTrimmed(list[0]);
      CleanCons(list[0], []);
    } else {
      var rest := Join(list[1..], ", ");
      CleanSplitJoin(list[1..]);
      assert Join(list, ", ") == list[0] + ", " + rest;
      CleanAfterComma(list[0], rest);
      assert list == [list[0]] + list[1..];
    }
  }

  /** A clean entry followed by ", " contributes itself, and the rest is cleaned as if on its own. */
  lemma CleanAfterComma(head: string, rest: string)
    requires CleanEntry(head)
    ensures CleanPieces(Split(head + ", " + rest, ',')) == [head] + CleanPieces(Split(rest, ','))
  {
    SplitCommaSpace(head, rest);
    var p := Split(rest, ',');
    CleanLeadingSpace(p[0], p[1..]);
    assert [p[0]] + p[1..] == p;
    TrimOfTrimmed(head);
    CleanCons(head, [" " + p[0]] + p[1..]);
  }

  /**
   * Re-parsing the list's display text gives back the list: rendering a
   * parsed list loses nothing the parser kept.
   */
  lemma ParseAvoidText(list: seq<string>)
    requires forall x :: x in list ==> CleanEntry(x)
    ensures ParseAvoidList(AvoidText(list)) == list
  {
    CleanSplitJoin(list);
  }

  /** Parsing is idempotent: what it produces is parsed back to itself. */
  lemma ParseAvoidIdempotent(text: string)
    ensures ParseAvoidList(AvoidText(ParseAvoidList(text))) == ParseAvoidList(text)
  {
    ParseAvoidText(ParseAvoidList(text));
  }

  /**
   * As written, the textarea's value is the parsed list joined with ", ", so
   * a separator just typed is dropped on the next render: after "a," or
   * "a " the field reads "a" again, and neither a second entry nor a
   * two-word entry can be typed in order.
   */
  lemma TypedSeparatorVanishes()
    ensures AvoidText(ParseAvoidList("a,")) == "a"
    ensures AvoidText(ParseAvoidList("a ")) == "a"
  {
    ParseTrailingComma();
    ParseTrailingSpace();
  }

  lemma ParseTrailingComma()
    ensures ParseAvoidList("a,") == ["a"]
  {
    assert "a,"[1..] == "," && ","[1..] == "";
    assert Split(",", ',') == ["", ""];
    assert Split("a,", ',') == [['a'] + ""] + [""];
    assert ['a'] + "" == "a";
    TrimOfTrimmed("a");
    CleanCons("a", [""]);
  }

  lemma ParseTrailingSpace()
    ensures ParseAvoidList("a ") == ["a"]
  {
    assert " "[1..] == "" && "a "[1..] == " ";
    assert Split(" ", ',') == [[' '] + ""];
    assert [' '] + "" == " ";
    assert Split("a ", ',') == [['a'] + " "];
    assert ['a'] + " " == "a ";
    assert SkipSpacesBack("a ", 2) == 1;
    CleanCons("a ", []);
  }

  /** The preferences the wizard starts from. */
  function InitialPreferences(pantryItems: seq<string>, anchorRecipes: seq<Recipe>): WeekPreferences {
    WeekPreferences("", pantryItems, [], 7, DailyCooking, 30, None, Some(anchorRecipes))
  }

  class WeekPlanWorkflow {
    var step: int
    var preferences: WeekPreferences
    var selectedCookingDays: seq<string>
    /** The avoid textarea's own text, kept as typed; the avoid list is parsed from it. */
    var avoidDraft: string

    ghost predicate Valid()
      reads this
    {
      1 <= step <= TotalSteps
    }

    /** The suggested ingredients and the anchor recipes come from the props. */
    constructor (pantryItems: seq<string>, anchorRecipes: seq<Recipe>)
      ensures step == 1 && preferences == InitialPreferences(pantryItems, anchorRecipes)
      ensures preferences.mustUseIngredients == pantryItems && preferences.anchorRecipes == Some(anchorRecipes)
      ensures selectedCookingDays == ["Mon", "Wed", "Fri"]
      ensures avoidDraft == "" && preferences.avoidIngredients == ParseAvoidList(avoidDraft)
      ensures Valid()
    {
      step := 1;
      preferences := InitialPreferences(pantryItems, anchorRecipes);
      selectedCookingDays := ["Mon", "Wed", "Fri"];
      avoidDraft := "";
    }

    /** handleNext: moves on before the last step; on the last step hands the preferences on. */
    method Next() returns (completed: Option<WeekPreferences>)
      requires Valid()
      modifies this
      ensures old(step) < TotalSteps ==> step == old(step) + 1 && completed.None?
      ensures old(step) == TotalSteps ==> step == old(step) && completed == Some(old(preferences))
      ensures preferences == old(preferences) && selectedCookingDays == old(selectedCookingDays)
      ensures avoidDraft == old(avoidDraft)
      ensures Valid()
    {
      if step < TotalSteps {
        step := step + 1;
        completed := None;
      } else {
        completed := Some(preferences);
      }
    }

    /** handleBack: one step back, never before the first. */
    method Back()
      requires Valid()
      modifies this
      ensures step == if old(step) > 1 then old(step) - 1 else old(step)
      ensures preferences == old(preferences) && selectedCookingDays == old(selectedCookingDays)
      ensures avoidDraft == old(avoidDraft)
      ensures Valid()
    {
      if step > 1 {
        step := step - 1;
      }
    }

    method SetVibe(vibe: string)
      modifies this
      ensures preferences == old(preferences).(vibe := vibe)
      ensures step == old(step) && selectedCookingDays == old(selectedCookingDays) && avoidDraft == old(avoidDraft)
    {
      preferences := preferences.(vibe := vibe);
    }

    /** addMustUse: whitespace-only input is ignored; anything else is appended as typed, duplicates included. */
    method AddMustUse(ingredient: string)
      modifies this
      ensures IsBlank(ingredient) ==> preferences == old(preferences)
      ensures !IsBlank(ingredient) ==>
        preferences == old(preferences).(mustUseIngredients := old(preferences).mustUseIngredients + [ingredient])
      ensures step == old(step) && selectedCookingDays == old(selectedCookingDays) && avoidDraft == old(avoidDraft)
    {
      if Trim(ingredient) == [] {
        return;
      }
      preferences := preferences.(mustUseIngredients := preferences.mustUseIngredients + [ingredient]);
    }

    /** removeMustUse: every equal entry goes; nothing else in the preferences changes. */
    method RemoveMustUse(ingredient: string)
      modifies this
      ensures preferences == old(preferences).(mustUseIngredients := RemoveAll(old(preferences).mustUseIngredients, ingredient))
      ensures ingredient !in preferences.mustUseIngredients
      ensures step == old(step) && selectedCookingDays == old(selectedCookingDays) && avoidDraft == old(avoidDraft)
    {
      preferences := preferences.(mustUseIngredients := RemoveAll(preferences.mustUseIngredients, ingredient));
    }

    method ToggleCookingDay(day: string)
      modifies this
      ensures selectedCookingDays == Toggle(old(selectedCookingDays), day)
      ensures day in selectedCookingDays <==> day !in old(selectedCookingDays)
      ensures step == old(step) && preferences == old(preferences) && avoidDraft == old(avoidDraft)
    {
      selectedCookingDays := Toggle(selectedCookingDays, day);
    }

    /**
     * Typing in the avoid textarea: the field keeps the text exactly as
     * typed, separators included, and the avoid list becomes its parse.
     */
    method SetAvoidText(text: string)
      modifies this
      ensures avoidDraft == text
      ensures preferences == old(preferences).(avoidIngredients := ParseAvoidList(avoidDraft))
      ensures forall x :: x in preferences.avoidIngredients ==> CleanEntry(x)
      ensures step == old(step) && selectedCookingDays == old(selectedCookingDays)
    {
      avoidDraft := text;
      preferences := preferences.(avoidIngredients := ParseAvoidList(text));
    }

    /** The "how many meals" buttons. */
    method SetCookingDays(meals: int)
      modifies this
      ensures preferences == old(preferences).(cookingDays := meals)
      ensures step == old(step) && selectedCookingDays == old(selectedCookingDays) && avoidDraft == old(avoidDraft)
    {
      preferences := preferences.(cookingDays := meals);
    }

    /** The "time per meal" buttons. */
    method SetTimePerDay(minutes: int)
      modifies this
      ensures preferences == old(preferences).(timePerDay := minutes)
      ensures step == old(step) && selectedCookingDays == old(selectedCookingDays) && avoidDraft == old(avoidDraft)
    {
      preferences := preferences.(timePerDay := minutes);
    }
  }
}
