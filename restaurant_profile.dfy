/** The restaurant profile form's update rules
    (frontend/src/features/restaurant/pages/Profile/RestaurantProfile.js): the
    field-change handler over the nested form object, the cuisine and image list
    edits, the image list sent on submit, and the form built from a loaded
    profile. The form is a JSON object, modelled as a map from key to value. */
module RestaurantProfile {
  import opened Common

  /** A form value: a string, a nested object, or a list of strings (images, cuisines). */
  datatype Json = Str(text: string) | Obj(fields: map<string, Json>) | List(items: seq<string>)

  /** The form object: its top-level keys and their values. */
  type Form = map<string, Json>

  /** `{ ...v }` for the objects the form holds: an object's fields; anything absent spreads
      to nothing. */
  function FieldsOf(form: Form, key: string): map<string, Json> {
    if key in form && form[key].Obj? then form[key].fields else map[]
  }

  /** `s.startsWith(p)`. */
  predicate StartsWith(s: string, p: string) {
    |p| <= |s| && s[..|p|] == p
  }

  /** `s.includes(sub)`. */
  predicate Contains(s: string, sub: string) {
    exists i :: 0 <= i <= |s| && StartsWith(s[i..], sub)
  }

  /** Any name that contains 'timings.' contains '.', so handleChange's second branch is
      never taken: the first branch catches every such name. */
  lemma TimingsBranchUnreachable(name: string)
    requires Contains(name, "timings.")
    ensures '.' in name
  {
    var i :| 0 <= i <= |name| && StartsWith(name[i..], "timings.");
    assert name[i + 7] == name[i..][..8][7];
  }

  /** handleChange as written: a name with '.' sets `child` inside `parent`, where parent
      and child are the first two '.'-separated pieces; any other name sets that top-level
      field. (The per-day timings branch sits behind the '.' test and is dead code, see
      TimingsBranchUnreachable.) Only the written key changes. */
  function HandleChangeAsWritten(form: Form, name: string, value: string): (r: Form)
    ensures '.' in name ==> r.Keys == form.Keys + {Split(name, '.')[0]}
    ensures '.' !in name ==> r.Keys == form.Keys + {name}
    ensures forall k :: k in form && k != (if '.' in name then Split(name, '.')[0] else name) ==> r[k] == form[k]
  {
    if '.' in name then
      var parts := Split(name, '.');
      var parent := parts[0];
      var child := parts[1];
      form[parent := Obj(FieldsOf(form, parent)[child := Str(value)])]
    else
      form[name := Str(value)]
  }

  /** A name "parent.child" with no further '.' updates only that nested key: the parent's
      other keys and every other top-level field are kept. */
  lemma NestedFieldUpdate(form: Form, parent: string, child: string, value: string)
    requires '.' !in parent && '.' !in child
    ensures var r := HandleChangeAsWritten(form, parent + "." + child, value);
            r.Keys == form.Keys + {parent}
            && r[parent] == Obj(FieldsOf(form, parent)[child := Str(value)])
            && (forall k :: k in form && k != parent ==> r[k] == form[k])
  {
    var name := parent + "." + child;
    assert name == parent + ['.'] + child;
    assert '.' in name by { assert name[|parent|] == '.'; }
    SplitFirstPiece(parent, child, '.');
    SplitNoSeparator(child, '.');
  }

  /** A name with no '.' sets only that top-level field. */
  lemma TopLevelUpdate(form: Form, name: string, value: string)
    requires '.' !in name
    ensures var r := HandleChangeAsWritten(form, name, value);
            r == form[name := Str(value)]
  {
  }

  /** A day's opening hours, both empty. */
  const EmptyHours: Json := Obj(map["open" := Str(""), "close" := Str("")])

  /** A timings object with every day's hours empty. */
  const EmptyTimings: Json := Obj(map["monday" := EmptyHours, "tuesday" := EmptyHours, "wednesday" := EmptyHours,
                                      "thursday" := EmptyHours, "friday" := EmptyHours, "saturday" := EmptyHours,
                                      "sunday" := EmptyHours])

  /** The timing inputs are named `timings.<day>.open` and `timings.<day>.close`; as written,
      such a change replaces the whole day object with the bare string, so the day loses both
      its open and its close time. */
  lemma TimingInputOverwritesDay(form: Form, day: string, which: string, value: string)
    requires '.' !in day && '.' !in which
    ensures var r := HandleChangeAsWritten(form, "timings." + day + "." + which, value);
            "timings" in r && r["timings"] == Obj(FieldsOf(form, "timings")[day := Str(value)])
            && !r["timings"].fields[day].Obj?
  {
    var name := "timings." + day + "." + which;
    assert name == "timings" + ['.'] + (day + "." + which);
    assert '.' in name by { assert name[7] == '.'; }
    SplitFirstPiece("timings", day + "." + which, '.');
    assert day + "." + which == day + ['.'] + which;
    SplitFirstPiece(day, which, '.');
  }

  /** For instance, with empty default hours, typing 09:00 into Monday's opening time leaves
      Monday as the string "09:00": its close field is gone. */
  lemma MondayOpenExample()
    ensures var form := map["timings" := EmptyTimings];
            var r := HandleChangeAsWritten(form, "timings.monday.open", "09:00");
            r["timings"].fields["monday"] == Str("09:00")
  {
    TimingInputOverwritesDay(map["timings" := EmptyTimings], "monday", "open", "09:00");
    assert "timings.monday.open" == "timings." + "monday" + "." + "open";
  }

  /** JavaScript `arr[i]` on the split pieces, where a missing piece reads as undefined and
      becomes the key 'undefined'. */
  function Piece(parts: seq<string>, i: nat): (r: string)
    ensures i < |parts| ==> r == parts[i]
    ensures i >= |parts| ==> r == "undefined"
  {
    if i < |parts| then parts[i] else "undefined"
  }

  /** handleChange with its two nested branches in the evident order: a name containing
      'timings.' sets one time inside one day, keeping the day's other time and the other
      days; any other name with '.' sets `child` inside `parent`; any other name sets that
      top-level field. */
  function HandleChange(form: Form, name: string, value: string): (r: Form)
    ensures Contains(name, "timings.") ==> r.Keys == form.Keys + {"timings"}
    ensures forall k :: k in form && k != "timings" && Contains(name, "timings.") ==> r[k] == form[k]
    ensures !Contains(name, "timings.") ==> r == HandleChangeAsWritten(form, name, value)
  {
    if Contains(name, "timings.") then
      var parts := Split(name, '.');
      var day := Piece(parts, 1);
      var which := Piece(parts, 2);
      var timings := FieldsOf(form, "timings");
      var hours := if day in timings && timings[day].Obj? then timings[day].fields else map[];
      form["timings" := Obj(timings[day := Obj(hours[which := Str(value)])])]
    else
      HandleChangeAsWritten(form, name, value)
  }

  /** With the corrected order, `timings.<day>.<which>` sets exactly that time: the day keeps
      its other time, the other days and the other form fields are unchanged. */
  lemma TimingInputSetsOneTime(form: Form, day: string, which: string, value: string)
    requires '.' !in day && '.' !in which
    requires "timings" in form && form["timings"].Obj? && day in form["timings"].fields
             && form["timings"].fields[day].Obj?
    ensures var r := HandleChange(form, "timings." + day + "." + which, value);
            var before := form["timings"].fields[day].fields;
            r.Keys == form.Keys
            && r["timings"].Obj? && r["timings"].fields.Keys == form["timings"].fields.Keys
            && r["timings"].fields[day] == Obj(before[which := Str(value)])
            && (forall d :: d in form["timings"].fields && d != day ==> r["timings"].fields[d] == form["timings"].fields[d])
            && (forall k :: k in form && k != "timings" ==> r[k] == form[k])
  {
    var name := "timings." + day + "." + which;
    assert Contains(name, "timings.") by { assert StartsWith(name[0..], "timings."); }
    assert name == "timings" + ['.'] + (day + "." + which);
    SplitFirstPiece("timings", day + "." + which, '.');
    assert day + "." + which == day + ['.'] + which;
    SplitFirstPiece(day, which, '.');
    SplitNoSeparator(which, '.');
  }

  /** The corrected handler on the Monday example keeps Monday's close time. */
  lemma MondayOpenCorrected()
    ensures var form := map["timings" := Obj(map["monday" := EmptyHours])];
            var r := HandleChange(form, "timings.monday.open", "09:00");
            "timings" in r && r["timings"].Obj? && "monday" in r["timings"].fields
            && r["timings"].fields["monday"] == Obj(map["open" := Str("09:00"), "close" := Str("")])
  {
    var form := map["timings" := Obj(map["monday" := EmptyHours])];
    assert "timings.monday.open" == "timings." + "monday" + "." + "open";
    TimingInputSetsOneTime(form, "monday", "open", "09:00");
    OpenOnEmptyHours();
  }

  /** Setting the opening time of empty hours keeps the empty close time. */
  lemma OpenOnEmptyHours()
    ensures EmptyHours.fields["open" := Str("09:00")] == map["open" := Str("09:00"), "close" := Str("")]
  {
  }

  /** The string without its trailing white space. */
  function TrimEnd(s: string): (r: string)
    ensures |r| <= |s| && r == s[..|r|]
    ensures r == [] || !IsSpace(r[|r| - 1])
    ensures forall k :: |r| <= k < |s| ==> IsSpace(s[k])
  {
    if s != [] && IsSpace(s[|s| - 1]) then TrimEnd(s[..|s| - 1]) else s
  }

  /** `s.trim()`: no longer than the string, and no white space left at either end. */
  function Trim(s: string): (r: string)
    ensures |r| <= |s|
    ensures r == [] || (!IsSpace(r[0]) && !IsSpace(r[|r| - 1]))
  {
    TrimEnd(TrimStart(s))
  }

  /** Trimming removes white space from both ends and keeps the inside: the result occurs
      in the string, has no white space at either end, and is empty exactly when the string
      is all white space. */
  lemma TrimSpec(s: string)
    ensures Trim(s) == [] || (!IsSpace(Trim(s)[0]) && !IsSpace(Trim(s)[|Trim(s)| - 1]))
    ensures Trim(s) == [] <==> forall k :: 0 <= k < |s| ==> IsSpace(s[k])
    ensures Contains(s, Trim(s))
  {
    var t := TrimStart(s);
    var r := TrimEnd(t);
    var i := |s| - |t|;
    assert StartsWith(s[i..], r) by {
      assert s[i..] == t;
    }
    if r == [] {
      forall k | i <= k < |s| ensures IsSpace(s[k]) {
        assert s[k] == t[k - i];
      }
    } else {
      assert r[0] == t[0];
    }
  }

  /** Trimming a trimmed string changes nothing. */
  lemma TrimIdempotent(s: string)
    ensures Trim(Trim(s)) == Trim(s)
  {
    var r := Trim(s);
    if r != [] {
      assert TrimStart(r) == r;
      assert TrimEnd(r) == r;
    }
  }

  /** No string occurs twice. */
  predicate NoDuplicates(xs: seq<string>) {
    forall i, j :: 0 <= i < j < |xs| ==> xs[i] != xs[j]
  }

  /** addCuisine on the cuisine list and the input text: a trimmed, non-blank value that is
      not yet listed is appended and the input cleared; otherwise list and input are kept. */
  function AddCuisine(cuisines: seq<string>, input: string): (r: (seq<string>, string))
    ensures Trim(input) != "" && Trim(input) !in cuisines ==> r == (cuisines + [Trim(input)], "")
    ensures Trim(input) == "" || Trim(input) in cuisines ==> r == (cuisines, input)
  {
    var v := Trim(input);
    if v != "" && v !in cuisines then (cuisines + [v], "") else (cuisines, input)
  }

  /** Adding keeps a duplicate-free list duplicate-free, and every listed cuisine is trimmed
      and non-blank if it was before. */
  lemma AddCuisineKeepsList(cuisines: seq<string>, input: string)
    requires NoDuplicates(cuisines)
    requires forall k :: 0 <= k < |cuisines| ==> cuisines[k] != "" && Trim(cuisines[k]) == cuisines[k]
    ensures var (r, _) := AddCuisine(cuisines, input);
            NoDuplicates(r) && forall k :: 0 <= k < |r| ==> r[k] != "" && Trim(r[k]) == r[k]
  {
    var (r, _) := AddCuisine(cuisines, input);
    if r != cuisines {
      TrimIdempotent(input);
      assert r[|cuisines|] == Trim(input);
    }
  }

  /** removeCuisine: `cuisines.filter(c => c !== cuisine)`. */
  function RemoveCuisine(cuisines: seq<string>, cuisine: string): (r: seq<string>)
    ensures |r| <= |cuisines|
    ensures forall x :: x in r <==> x in cuisines && x != cuisine
  {
    if cuisines == [] then []
    else if cuisines[0] == cuisine then RemoveCuisine(cuisines[1..], cuisine)
    else [cuisines[0]] + RemoveCuisine(cuisines[1..], cuisine)
  }

  /** The filter works piece by piece, so the remaining cuisines keep their order. */
  lemma {:induction false} RemoveCuisineAppend(a: seq<string>, b: seq<string>, cuisine: string)
    ensures RemoveCuisine(a + b, cuisine) == RemoveCuisine(a, cuisine) + RemoveCuisine(b, cuisine)
  {
    if a == [] {
      assert a + b == b;
    } else {
      assert (a + b)[1..] == a[1..] + b;
      RemoveCuisineAppend(a[1..], b, cuisine);
    }
  }

  /** Removing an added cuisine gives the list back. */
  lemma RemoveAfterAdd(cuisines: seq<string>, input: string)
    requires Trim(input) != "" && Trim(input) !in cuisines
    ensures RemoveCuisine(AddCuisine(cuisines, input).0, Trim(input)) == cuisines
  {
    var v := Trim(input);
    RemoveCuisineAppend(cuisines, [v], v);
    RemoveAbsentCuisine(cuisines, v);
  }

  /** A list without the cuisine is left as it is. */
  lemma {:induction false} RemoveAbsentCuisine(cuisines: seq<string>, cuisine: string)
    requires cuisine !in cuisines
    ensures RemoveCuisine(cuisines, cuisine) == cuisines
  {
    if cuisines != [] {
      RemoveAbsentCuisine(cuisines[1..], cuisine);
    }
  }

  /** Where `splice(index, 1)` starts: a negative index counts from the end (clamped at 0),
      an index past the end is the end. */
  function SpliceStart(n: nat, index: int): (s: nat)
    ensures s <= n
    ensures 0 <= index <= n ==> s == index
  {
    if index < 0 then (if n + index < 0 then 0 else n + index)
    else if index > n then n
    else index
  }

  /** The list `splice(index, 1)` leaves: the element at the start position removed, if any;
      nothing else is added or lost. */
  function Spliced(images: seq<string>, index: int): (r: seq<string>)
    ensures SpliceStart(|images|, index) < |images| ==>
              |r| == |images| - 1 && multiset(r) + multiset{images[SpliceStart(|images|, index)]} == multiset(images)
    ensures SpliceStart(|images|, index) == |images| ==> r == images
  {
    var s := SpliceStart(|images|, index);
    if s < |images| then
      assert images == images[..s] + [images[s]] + images[s + 1..];
      images[..s] + images[s + 1..]
    else images
  }

  /** At a valid index, exactly that image goes and the others keep their order. */
  lemma SplicedValidIndex(images: seq<string>, index: int)
    requires 0 <= index < |images|
    ensures var r := Spliced(images, index);
            |r| == |images| - 1
            && (forall k :: 0 <= k < index ==> r[k] == images[k])
            && (forall k :: index <= k < |r| ==> r[k] == images[k + 1])
  {
  }

  /** removeImage: copies the images and splices the copy in place, shifting the later
      images down one place. */
  method RemoveImage(images: seq<string>, index: int) returns (r: seq<string>)
    ensures r == Spliced(images, index)
  {
    var a := new string[|images|](i requires 0 <= i < |images| => images[i]);
    var s := SpliceStart(a.Length, index);
    if s == a.Length {
      return a[..];
    }
    var i := s;
    while i < a.Length - 1
      invariant s <= i <= a.Length - 1
      invariant a[..s] == images[..s]
      invariant forall k :: s <= k < i ==> a[k] == images[k + 1]
      invariant forall k :: i <= k < a.Length ==> a[k] == images[k]
    {
      a[i] := a[i + 1];
      i := i + 1;
    }
    r := a[..a.Length - 1];
    assert r == images[..s] + images[s + 1..];
  }

  /** handleSubmit's images: the pending new image appended when there is one (an empty
      data URL counts as none), the form's images otherwise. */
  function SubmittedImages(images: seq<string>, newImage: Option<string>): (r: seq<string>)
    ensures |r| >= |images| && r[..|images|] == images
    ensures Truthy(newImage) ==> |r| == |images| + 1 && r[|images|] == newImage.value
    ensures !Truthy(newImage) ==> r == images
  {
    if Truthy(newImage) then images + [newImage.value] else images
  }

  /** JavaScript truthiness of a profile value: only the empty string is falsy here (objects
      and arrays, even empty ones, are truthy). */
  predicate TruthyJson(v: Json) {
    !(v.Str? && v.text == "")
  }

  /** The location, contact and timings objects of an empty form. */
  const EmptyLocation: Json := Obj(map["address" := Str(""), "city" := Str(""), "state" := Str(""),
                                       "postalCode" := Str(""), "country" := Str("")])
  const EmptyContact: Json := Obj(map["phone" := Str(""), "email" := Str(""), "website" := Str("")])

  /** The initial form: every text empty, default nested objects, no images, no cuisines. */
  const InitialForm: Form := map["name" := Str(""), "description" := Str(""), "location" := EmptyLocation,
                                 "contactInfo" := EmptyContact, "timings" := EmptyTimings,
                                 "images" := List([]), "cuisines" := List([])]

  /** The form built from a loaded profile: each of the seven fields is the profile's value
      when present and truthy (`profile.x || default`), the initial form's value otherwise. */
  function FormFromProfile(profile: map<string, Json>): (r: Form)
    ensures r.Keys == InitialForm.Keys
    ensures forall k :: k in InitialForm ==>
              r[k] == (if k in profile && TruthyJson(profile[k]) then profile[k] else InitialForm[k])
  {
    map k | k in InitialForm :: if k in profile && TruthyJson(profile[k]) then profile[k] else InitialForm[k]
  }

  /** An empty profile loads as the initial form, and loading ignores keys the form lacks. */
  lemma EmptyProfileGivesInitialForm(profile: map<string, Json>)
    ensures FormFromProfile(map[]) == InitialForm
    ensures FormFromProfile(profile) == FormFromProfile(map k | k in profile && k in InitialForm :: profile[k])
  {
  }
}
