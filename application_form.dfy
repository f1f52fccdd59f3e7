/** The recruitment application wizard: a form object edited through a few
    generic updaters, a chain of checks before submission, the multipart body
    built from the form, and the step counter of the wizard. */
module ApplicationForm {
  import opened Wrappers
  import opened Text
  import opened Http
  import Json

  /** A value held in the form object. `File` is a chosen upload, named. */
  datatype Value =
    | Null
    | Str(s: string)
    | Num(n: int)
    | Bool(b: bool)
    | List(items: seq<Value>)
    | Obj(members: seq<Member>)
    | File(name: string)

  /** One property of an object, in the object's key order. */
  datatype Member = Member(key: string, val: Value)

  /** The value under `key` (the first such property), or nothing (`undefined`). */
  function Lookup(r: seq<Member>, key: string): Option<Value>
    decreases |r|
  {
    if r == [] then None
    else if r[0].key == key then Some(r[0].val)
    else Lookup(r[1..], key)
  }

  /** A property is found exactly when the object has its key. */
  lemma {:induction false} LookupFound(r: seq<Member>, key: string)
    ensures Lookup(r, key).Some? <==> key in Keys(r)
    decreases |r|
  {
    if r != [] && r[0].key != key {
      LookupFound(r[1..], key);
    }
  }

  /** The property at `i` is the one found when no earlier property has its key. */
  lemma {:induction false} LookupAt(r: seq<Member>, i: nat, key: string)
    requires i < |r| && r[i].key == key
    requires forall j :: 0 <= j < i ==> r[j].key != key
    ensures Lookup(r, key) == Some(r[i].val)
    decreases i
  {
    if i > 0 {
      LookupAt(r[1..], i - 1, key);
    }
  }

  function Keys(r: seq<Member>): (ks: seq<string>)
    decreases |r|
  {
    if r == [] then [] else [r[0].key] + Keys(r[1..])
  }

  /** `{ ...r, [key]: v }`: the new value under `key`, every other key as before. */
  function Put(r: seq<Member>, key: string, v: Value): (q: seq<Member>)
    ensures Lookup(q, key) == Some(v)
    ensures forall k :: k != key ==> Lookup(q, k) == Lookup(r, k)
    decreases |r|
  {
    if r == [] then [Member(key, v)]
    else if r[0].key == key then [Member(key, v)] + r[1..]
    else [r[0]] + Put(r[1..], key, v)
  }

  /** An existing property keeps its place; a new one goes last. */
  lemma {:induction false} PutKeys(r: seq<Member>, key: string, v: Value)
    ensures key in Keys(r) ==> Keys(Put(r, key, v)) == Keys(r)
    ensures key !in Keys(r) ==> Keys(Put(r, key, v)) == Keys(r) + [key]
    decreases |r|
  {
    if r != [] {
      if r[0].key != key {
        PutKeys(r[1..], key, v);
        assert Put(r, key, v)[1..] == Put(r[1..], key, v);
      } else {
        assert Put(r, key, v)[1..] == r[1..];
      }
    }
  }

  /** JavaScript truthiness of a property read: `undefined`, `null`, `""`, `0`
      and `false` are falsy; arrays, objects and files are truthy. */
  predicate Truthy(v: Option<Value>) {
    match v
    case None => false
    case Some(Null) => false
    case Some(Str(s)) => s != ""
    case Some(Num(n)) => n != 0
    case Some(Bool(b)) => b
    case Some(_) => true
  }

  /** `v.key` on any value: only an object has properties here. */
  function Prop(v: Option<Value>, key: string): Option<Value> {
    if v.Some? && v.value.Obj? then Lookup(v.value.members, key) else None
  }

  // The array updaters.

  /** `arr[index] = { ...arr[index], [fieldKey]: value }` on a copy. */
  function SetItemField(items: seq<Value>, index: nat, fieldKey: string, value: Value): (r: seq<Value>)
    requires index < |items| && items[index].Obj?
    ensures |r| == |items|
    ensures r[index].Obj? && Lookup(r[index].members, fieldKey) == Some(value)
    ensures forall k :: k != fieldKey ==> Lookup(r[index].members, k) == Lookup(items[index].members, k)
    ensures forall i :: 0 <= i < |items| && i != index ==> r[i] == items[i]
  {
    items[index := Obj(Put(items[index].members, fieldKey, value))]
  }

  /** `[...arr, template]`. */
  function AddItem(items: seq<Value>, template: Value): (r: seq<Value>)
    ensures |r| == |items| + 1 && r[..|items|] == items && r[|items|] == template
  {
    items + [template]
  }

  /** `arr.filter((_, i) => i !== index)`, walking the array with the position
      of `index` relative to the current element. */
  function RemoveItem(items: seq<Value>, index: int): (r: seq<Value>)
    ensures 0 <= index < |items| ==> r == items[..index] + items[index + 1..]
    ensures !(0 <= index < |items|) ==> r == items
    decreases |items|
  {
    if items == [] then []
    else
      var rest := RemoveItem(items[1..], index - 1);
      if index == 0 then rest
      else
        assert 0 < index < |items| ==> items[1..][..index - 1] == items[1..index];
        [items[0]] + rest
  }

  /** The remaining elements keep their order: the ones before `index` stay
      put and the ones after it move down by one. */
  lemma RemoveItemShifts(items: seq<Value>, index: nat)
    requires index < |items|
    ensures var r := RemoveItem(items, index);
      |r| == |items| - 1 &&
      (forall i :: 0 <= i < index ==> r[i] == items[i]) &&
      (forall i :: index <= i < |r| ==> r[i] == items[i + 1])
  {
  }

  // The languages field.

  /** A language as the field stores it: not empty, not padded, no comma. */
  predicate Language(x: string) {
    x != "" && Clean(x)
  }

  predicate Clean(x: string) {
    ',' !in x && Trim(x) == x
  }

  /** A trimmed piece of comma-free text is comma-free and trimmed. */
  lemma TrimClean(x: string)
    requires ',' !in x
    ensures Clean(Trim(x))
  {
    TrimIdempotent(x);
    TrimPadded(x);
    var left, right :| Padded(x, Trim(x), left, right);
    assert forall k :: 0 <= k < |Trim(x)| ==> Trim(x)[k] == x[|left| + k];
  }

  /** `text.split(",").map(s => s.trim()).filter(Boolean)`. */
  function Languages(text: string): (r: seq<string>)
    ensures forall i :: 0 <= i < |r| ==> Language(r[i])
  {
    var pieces := Split(text, ',');
    var trimmed := TrimAll(pieces);
    forall x | x in trimmed ensures Clean(x) {
      var i :| 0 <= i < |trimmed| && trimmed[i] == x;
      TrimClean(pieces[i]);
    }
    NonEmpty(trimmed)
  }

  /** Splitting the comma-joined text of comma-free pieces gives the pieces back. */
  lemma {:induction false} SplitJoin(parts: seq<string>)
    requires |parts| >= 1
    requires forall i :: 0 <= i < |parts| ==> ',' !in parts[i]
    ensures Split(Join(parts, [',']), ',') == parts
    decreases |parts|
  {
    if |parts| > 1 {
      var s := Join(parts, [',']);
      var tail := Join(parts[1..], [',']);
      assert s == parts[0] + [','] + tail;
      assert s[|parts[0]|] == ',';
      assert s[..|parts[0]|] == parts[0];
      var i := IndexOf(s, ',');
      assert i == |parts[0]|;
      assert s[i + 1..] == tail;
      SplitJoin(parts[1..]);
    }
  }

  /** The pieces of `xs.join(", ")` between commas: the first language, then
      each further one after a space. */
  function Spaced(xs: seq<string>): (ys: seq<string>)
    ensures |ys| == |xs|
  {
    seq(|xs|, i requires 0 <= i < |xs| => if i == 0 then xs[0] else " " + xs[i])
  }

  lemma JoinPrefixSpace(zs: seq<string>)
    requires |zs| >= 1
    ensures Join([" " + zs[0]] + zs[1..], [',']) == " " + Join(zs, [','])
  {
    var w := [" " + zs[0]] + zs[1..];
    if |zs| == 1 {
      assert w == [" " + zs[0]];
    } else {
      var tail := Join(zs[1..], [',']);
      assert w[0] == " " + zs[0] && w[1..] == zs[1..];
      assert Join(w, [',']) == w[0] + [','] + tail;
      assert Join(zs, [',']) == zs[0] + [','] + tail;
      SpaceFirst(zs[0], tail);
    }
  }

  lemma SpaceFirst(a: string, b: string)
    ensures (" " + a) + [','] + b == " " + (a + [','] + b)
  {
  }

  /** Joining the spaced pieces with bare commas gives the text the field shows. */
  lemma {:induction false} SpacedJoin(xs: seq<string>)
    requires |xs| >= 1
    ensures Join(Spaced(xs), [',']) == Join(xs, ", ")
    decreases |xs|
  {
    if |xs| > 1 {
      var ys := Spaced(xs);
      var rest := Spaced(xs[1..]);
      assert ys[1..] == [" " + rest[0]] + rest[1..];
      JoinPrefixSpace(rest);
      SpacedJoin(xs[1..]);
    }
  }

  /** A stored language after the joining space trims back to itself. */
  lemma TrimSpaced(x: string)
    requires Language(x)
    ensures Trim(" " + x) == x
  {
    assert (" " + x)[1..] == x;
  }

  lemma {:induction false} NonEmptyKeeps(parts: seq<string>)
    requires forall i :: 0 <= i < |parts| ==> parts[i] != ""
    ensures NonEmpty(parts) == parts
    decreases |parts|
  {
    if parts != [] {
      NonEmptyKeeps(parts[1..]);
    }
  }

  /** The text of a non-empty list splits at its commas into the spaced pieces. */
  lemma JoinedPieces(xs: seq<string>)
    requires |xs| >= 1 && forall i :: 0 <= i < |xs| ==> Language(xs[i])
    ensures Split(Join(xs, ", "), ',') == Spaced(xs)
  {
    var ys := Spaced(xs);
    forall i | 0 <= i < |ys| ensures ',' !in ys[i] {
      if i > 0 {
        assert ys[i] == " " + xs[i];
      }
    }
    SplitJoin(ys);
    SpacedJoin(xs);
  }

  /** The spaced pieces, trimmed, are the list. */
  lemma TrimmedPieces(xs: seq<string>)
    requires |xs| >= 1 && forall i :: 0 <= i < |xs| ==> Language(xs[i])
    ensures TrimAll(Spaced(xs)) == xs
  {
    var ys := Spaced(xs);
    var t := TrimAll(ys);
    forall i | 0 <= i < |xs| ensures t[i] == xs[i] {
      if i > 0 {
        assert ys[i] == " " + xs[i];
        TrimSpaced(xs[i]);
      }
    }
  }

  /** An empty field holds no languages. */
  lemma NoLanguages()
    ensures Languages("") == []
  {
    assert Split("", ',') == [""];
    assert TrimAll([""]) == [""];
  }

  /** The field shows `languagesKnown.join(", ")` and reads the text back with
      `handleLanguagesChange`; a list of languages survives the round trip. */
  lemma LanguagesRoundTrip(xs: seq<string>)
    requires forall i :: 0 <= i < |xs| ==> Language(xs[i])
    ensures Languages(Join(xs, ", ")) == xs
  {
    if xs == [] {
      NoLanguages();
    } else {
      JoinedPieces(xs);
      TrimmedPieces(xs);
      NonEmptyKeeps(xs);
    }
  }

  // The checks before submission.

  const PersonalMessage := "Please fill required fields: Full Name, Email, Mobile, Date of Birth."
  const TypeMessage := "Please choose application type (School or College)."
  const ApplyingMessage := "Please choose 'Applying For' option."
  const GenderMessage := "Please choose Gender and Category."
  const CategoryMessage := "Please complete the Education Category fields."

  /** Where a failed check sends the wizard, and the toast it shows. */
  datatype Stop = Stop(step: nat, message: string)

  predicate PersonalComplete(form: seq<Member>) {
    && Truthy(Lookup(form, "fullName")) && Truthy(Lookup(form, "email"))
    && Truthy(Lookup(form, "mobileNumber")) && Truthy(Lookup(form, "dateOfBirth"))
  }

  predicate IsCollege(form: seq<Member>) {
    Lookup(form, "applicationType") == Some(Str("college"))
  }

  predicate EducationCategoryComplete(form: seq<Member>) {
    var ec := Lookup(form, "educationCategory");
    Truthy(ec) && Truthy(Prop(ec, "category")) && Truthy(Prop(ec, "collegeType")) && Truthy(Prop(ec, "details"))
  }

  /** The form passes every check. */
  predicate Submittable(form: seq<Member>) {
    && PersonalComplete(form) && Truthy(Lookup(form, "applicationType")) && Truthy(Lookup(form, "applyingFor"))
    && Truthy(Lookup(form, "gender")) && Truthy(Lookup(form, "category"))
    && (IsCollege(form) ==> EducationCategoryComplete(form))
  }

  /** The early returns of `handleSubmit`, in order: the first failing check
      decides the step and the toast. */
  function SubmitCheck(form: seq<Member>): (r: Option<Stop>)
    ensures r.None? <==> Submittable(form)
    ensures r.Some? ==> r.value.step <= 1
    ensures !PersonalComplete(form) ==> r == Some(Stop(1, PersonalMessage))
    ensures PersonalComplete(form) && !Truthy(Lookup(form, "applicationType")) ==> r == Some(Stop(0, TypeMessage))
  {
    if !PersonalComplete(form) then Some(Stop(1, PersonalMessage))
    else if !Truthy(Lookup(form, "applicationType")) then Some(Stop(0, TypeMessage))
    else if !Truthy(Lookup(form, "applyingFor")) then Some(Stop(1, ApplyingMessage))
    else if !Truthy(Lookup(form, "gender")) || !Truthy(Lookup(form, "category")) then Some(Stop(1, GenderMessage))
    else if IsCollege(form) && !EducationCategoryComplete(form) then Some(Stop(1, CategoryMessage))
    else None
  }

  /** Only a college application looks at the education category: for any
      other the check ignores what that property holds. */
  lemma CategoryOnlyForColleges(form: seq<Member>, v: Value)
    requires !IsCollege(form)
    ensures SubmitCheck(Put(form, "educationCategory", v)) == SubmitCheck(form)
  {
    SameChecks(form, Put(form, "educationCategory", v));
  }

  /** Two forms that agree on every property but the education category,
      neither of them a college application, meet the same check. */
  lemma SameChecks(form: seq<Member>, q: seq<Member>)
    requires !IsCollege(form)
    requires forall k :: k != "educationCategory" ==> Lookup(q, k) == Lookup(form, k)
    ensures SubmitCheck(q) == SubmitCheck(form)
  {
    assert PersonalComplete(q) == PersonalComplete(form);
    assert IsCollege(q) == IsCollege(form);
  }

  // The multipart body.

  /** `JSON.stringify` on a string. */
  function Quoted(s: string): string {
    "\"" + Json.Escape(s) + "\""
  }

  /** A number in a string. */
  function IntText(n: int): (t: string)
    ensures t != ""
  {
    if n < 0 then "-" + NatToString(-n) else NatToString(n)
  }

  /** `JSON.stringify`. A file has no own enumerable properties, so it
      stringifies as an empty object. */
  function Stringify(v: Value): (t: string)
    ensures t != ""
    decreases v
  {
    match v
    case Null => "null"
    case Str(s) => Quoted(s)
    case Num(n) => IntText(n)
    case Bool(b) => if b then "true" else "false"
    case List(items) =>
      "[" + Join(seq(|items|, i requires 0 <= i < |items| => Stringify(items[i])), ",") + "]"
    case Obj(members) =>
      "{" + Join(seq(|members|, i requires 0 <= i < |members| =>
                   Quoted(members[i].key) + ":" + Stringify(members[i].val)), ",") + "}"
    case File(_) => "{}"
  }

  /** The text `fd.append(key, value)` stores for a value of the loop: "" for
      null, JSON for arrays and objects, the value's own text otherwise. */
  function AppendedText(v: Value): (t: string)
    ensures v.Null? ==> t == ""
    ensures v.List? || v.Obj? || v.File? ==> t == Stringify(v)
    ensures v.Str? ==> t == v.s
  {
    match v
    case Null => ""
    case Str(s) => s
    case Num(n) => IntText(n)
    case Bool(b) => if b then "true" else "false"
    case _ => Stringify(v)
  }

  datatype Part = TextPart(text: string) | FilePart(file: Value)
  datatype FormEntry = FormEntry(key: string, part: Part)

  /** The keys the loop leaves to the file uploads. */
  const Skipped := ["photo", "resume"]

  /** The uploads, appended first and only when set. */
  function FileEntries(form: seq<Member>): (r: seq<FormEntry>)
    ensures |r| <= 2 && forall e :: e in r ==> e.key in Skipped && e.part.FilePart?
  {
    var photo := Lookup(form, "photo");
    var resume := Lookup(form, "resume");
    (if Truthy(photo) then [FormEntry("photo", FilePart(photo.value))] else []) +
    (if Truthy(resume) then [FormEntry("resume", FilePart(resume.value))] else [])
  }

  /** Each upload is sent, as the file it holds, exactly when it is set. */
  lemma FilesSentWhenSet(form: seq<Member>)
    ensures var r := FileEntries(form);
      && ((exists e :: e in r && e.key == "photo") <==> Truthy(Lookup(form, "photo")))
      && ((exists e :: e in r && e.key == "resume") <==> Truthy(Lookup(form, "resume")))
      && (forall e :: e in r && e.key == "photo" ==> e.part == FilePart(Lookup(form, "photo").value))
      && (forall e :: e in r && e.key == "resume" ==> e.part == FilePart(Lookup(form, "resume").value))
  {
    var photo := Lookup(form, "photo");
    var resume := Lookup(form, "resume");
    var ps := if Truthy(photo) then [FormEntry("photo", FilePart(photo.value))] else [];
    var rs := if Truthy(resume) then [FormEntry("resume", FilePart(resume.value))] else [];
    assert FileEntries(form) == ps + rs;
    if Truthy(photo) {
      assert FileEntries(form)[0] == FormEntry("photo", FilePart(photo.value));
    }
    if Truthy(resume) {
      assert FileEntries(form)[|ps|] == FormEntry("resume", FilePart(resume.value));
    }
  }

  /** What one property of the form adds in the loop. */
  function EntryOf(m: Member): seq<FormEntry> {
    if m.key in Skipped then [] else [FormEntry(m.key, TextPart(AppendedText(m.val)))]
  }

  /** What the `forEach` over the keys appends, property by property. */
  function LoopEntries(form: seq<Member>): seq<FormEntry>
    decreases |form|
  {
    if form == [] then [] else LoopEntries(form[..|form| - 1]) + EntryOf(form[|form| - 1])
  }

  /** The loop appends exactly one text entry per property besides the
      uploads, with the property's text, and never an upload. */
  lemma {:induction false} LoopEntriesIff(form: seq<Member>, e: FormEntry)
    ensures e in LoopEntries(form) <==>
      exists i :: 0 <= i < |form| && form[i].key !in Skipped &&
        e == FormEntry(form[i].key, TextPart(AppendedText(form[i].val)))
    ensures e in LoopEntries(form) ==> e.key !in Skipped && e.part.TextPart?
    decreases |form|
  {
    if form != [] {
      var init := form[..|form| - 1];
      LoopEntriesIff(init, e);
      assert forall i :: 0 <= i < |init| ==> init[i] == form[i];
      if e in LoopEntries(form) && e !in LoopEntries(init) {
        assert e in EntryOf(form[|form| - 1]);
      }
    }
  }

  lemma LoopEntriesStep(form: seq<Member>, i: nat)
    requires i < |form|
    ensures LoopEntries(form[..i + 1]) == LoopEntries(form[..i]) + EntryOf(form[i])
  {
    assert form[..i + 1][..i] == form[..i];
  }

  /** The uploads, appended first and only when set. */
  method AppendUploads(form: seq<Member>) returns (fd: seq<FormEntry>)
    ensures fd == FileEntries(form)
  {
    fd := [];
    var photo := Lookup(form, "photo");
    if Truthy(photo) {
      fd := fd + [FormEntry("photo", FilePart(photo.value))];
    }
    var resume := Lookup(form, "resume");
    if Truthy(resume) {
      fd := fd + [FormEntry("resume", FilePart(resume.value))];
    }
  }

  /** The `forEach` over the form's keys, appending to `fd0`. */
  method AppendFields(form: seq<Member>, fd0: seq<FormEntry>) returns (fd: seq<FormEntry>)
    ensures fd == fd0 + LoopEntries(form)
  {
    fd := fd0;
    var i := 0;
    while i < |form|
      invariant 0 <= i <= |form|
      invariant fd == fd0 + LoopEntries(form[..i])
    {
      var m := form[i];
      LoopEntriesStep(form, i);
      if m.key !in Skipped {
        fd := fd + [FormEntry(m.key, TextPart(AppendedText(m.val)))];
      }
      i := i + 1;
    }
    assert form[..|form|] == form;
  }

  /** The `FormData` of a submission: the uploads, then the loop over the
      form's keys. */
  method BuildFormData(form: seq<Member>) returns (fd: seq<FormEntry>)
    ensures fd == FileEntries(form) + LoopEntries(form)
  {
    fd := AppendUploads(form);
    fd := AppendFields(form, fd);
  }

  // The wizard.

  const Steps := ["Personal", "Family", "Education", "Work", "References", "Uploads", "Social", "Review"]

  /** `steps.length - 1`. */
  const LastStep := |Steps| - 1

  function Min(a: int, b: int): int {
    if a < b then a else b
  }

  /** The review section is rendered at `step === 8`. */
  predicate ReviewShownAsWritten(step: int) {
    step == 8
  }

  /** The review section as the steps list places it: at the "Review" step. */
  predicate ReviewShown(step: int) {
    step == LastStep
  }

  /** No step the wizard can reach renders the review as written. */
  lemma ReviewUnreachableAsWritten(step: int)
    requires 0 <= step <= LastStep
    ensures !ReviewShownAsWritten(step)
  {
  }

  /** Seven presses of Next from the first step reach the "Review" step, where
      the corrected review section renders. */
  lemma ReviewReached()
    ensures var s := 0;
      var s7 := Min(Min(Min(Min(Min(Min(Min(s + 1, LastStep) + 1, LastStep) + 1, LastStep) + 1, LastStep) + 1, LastStep) + 1, LastStep) + 1, LastStep);
      s7 == LastStep && Steps[s7] == "Review" && ReviewShown(s7)
  {
  }

  datatype ToastKind = SuccessToast | ErrorToast
  datatype Toast = Toast(kind: ToastKind, message: string)

  const SubmittedMessage := "Submitted Successfully"
  const SubmitFailedMessage := "Submission failed. Please check the console for details."

  /** `initialForm`, in its key order. */
  const InitialForm: seq<Member> := [
    Member("applicationType", Str("")), Member("photo", Null), Member("resume", Null),
    Member("applyingFor", Str("")), Member("subjectOrDepartment", Str("")), Member("fullName", Str("")),
    Member("fatherName", Str("")), Member("fatherOccupation", Str("")), Member("motherName", Str("")),
    Member("motherOccupation", Str("")), Member("dateOfBirth", Str("")), Member("gender", Str("")),
    Member("bloodGroup", Str("")), Member("category", Str("")), Member("religion", Str("")),
    Member("nationality", Str("Indian")), Member("languagesKnown", List([])),
    Member("physicalDisability", Bool(false)), Member("disabilityPercentage", Str("")),
    Member("maritalStatus", Str("Unmarried")), Member("spouseName", Str("")), Member("children", Num(0)),
    Member("address", Str("")), Member("addressPincode", Str("")), Member("permanentAddress", Str("")),
    Member("permanentAddressPincode", Str("")), Member("mobileNumber", Str("")),
    Member("emergencyMobileNumber", Str("")), Member("email", Str("")), Member("areaOfInterest", Str("")),
    Member("experienceType", Str("")),
    Member("educationQualifications", List([Obj([
      Member("level", Str("Graduation")), Member("examType", Str("Regular")), Member("medium", Str("English")),
      Member("subject", Str("")), Member("boardOrUniversity", Str("")), Member("institutionName", Str("")),
      Member("yearOfPassing", Str("")), Member("percentageOrCGPA", Str(""))])])),
    Member("educationCategory", Obj([
      Member("category", Str("Tier 1")), Member("categoryRemark", Str("")),
      Member("collegeType", Str("Education")), Member("collegeRemark", Str("")),
      Member("details", Str("Central Universities")), Member("detailsRemark", Str(""))])),
    Member("expectedSalary", Str("")), Member("totalWorkExperience", Num(0)),
    Member("workExperience", List([Obj([
      Member("serialNo", Num(1)), Member("institutionName", Str("")), Member("designation", Str("")),
      Member("startDate", Str("")), Member("endDate", Str("")), Member("netMonthlySalary", Str("")),
      Member("reasonOfLeaving", Str(""))])])),
    Member("socialMedia", Obj([Member("linkedin", Str("")), Member("facebook", Str("")), Member("instagram", Str(""))])),
    Member("references", List([Obj([Member("name", Str("")), Member("designation", Str("")), Member("contactNumber", Str(""))])]))
  ]

  /** A fresh form is sent back to the personal step: it has no name. */
  lemma InitialFormStops()
    ensures SubmitCheck(InitialForm) == Some(Stop(1, PersonalMessage))
  {
    LookupAt(InitialForm, 5, "fullName");
  }

  datatype WizardState = WizardState(
    step: int, submitted: bool, form: seq<Member>, toasts: seq<Toast>, requests: seq<seq<FormEntry>>)

  class ApplicationFormPage {
    var step: int
    var submitted: bool
    var form: seq<Member>
    var toasts: seq<Toast>
    /** The multipart bodies posted to `addApplication`. */
    var requests: seq<seq<FormEntry>>

    function State(): WizardState
      reads this
    {
      WizardState(step, submitted, form, toasts, requests)
    }

    /** The step is one of the eight. */
    predicate Valid()
      reads this
    {
      0 <= step <= LastStep
    }

    constructor ()
      ensures State() == WizardState(0, false, InitialForm, [], []) && Valid()
    {
      step, submitted, form, toasts, requests := 0, false, InitialForm, [], [];
    }

    /** `setField(key, value)`. */
    method SetField(key: string, v: Value)
      modifies this
      ensures State() == old(State()).(form := Put(old(form), key, v))
      ensures old(Valid()) ==> Valid()
    {
      form := Put(form, key, v);
    }

    /** `handleFileChange(key, file)`: the chosen file, or nothing. */
    method FileChanged(key: string, file: Option<string>)
      modifies this
      ensures State() == old(State()).(form := Put(old(form), key, if file.Some? then File(file.value) else Null))
      ensures old(Valid()) ==> Valid()
    {
      form := Put(form, key, if file.Some? then File(file.value) else Null);
    }

    /** `handleLanguagesChange(text)`. */
    method LanguagesChanged(text: string)
      modifies this
      ensures var langs := Languages(text);
        State() == old(State()).(form := Put(old(form), "languagesKnown",
                                              List(seq(|langs|, i requires 0 <= i < |langs| => Str(langs[i])))))
      ensures old(Valid()) ==> Valid()
    {
      var langs := Languages(text);
      form := Put(form, "languagesKnown", List(seq(|langs|, i requires 0 <= i < |langs| => Str(langs[i]))));
    }

    /** `setNestedArrayItem(arrayKey, index, fieldKey, value)` on a row that exists. */
    method SetNestedArrayItem(arrayKey: string, index: nat, fieldKey: string, value: Value)
      requires var a := Lookup(form, arrayKey);
        a.Some? && a.value.List? && index < |a.value.items| && a.value.items[index].Obj?
      modifies this
      ensures var items := Lookup(old(form), arrayKey).value.items;
        State() == old(State()).(form := Put(old(form), arrayKey, List(SetItemField(items, index, fieldKey, value))))
      ensures old(Valid()) ==> Valid()
    {
      var items := Lookup(form, arrayKey).value.items;
      form := Put(form, arrayKey, List(SetItemField(items, index, fieldKey, value)));
    }

    /** `addArrayItem(arrayKey, template)`. */
    method AddArrayItem(arrayKey: string, template: Value)
      requires var a := Lookup(form, arrayKey); a.Some? && a.value.List?
      modifies this
      ensures var items := Lookup(old(form), arrayKey).value.items;
        State() == old(State()).(form := Put(old(form), arrayKey, List(AddItem(items, template))))
      ensures old(Valid()) ==> Valid()
    {
      var items := Lookup(form, arrayKey).value.items;
      form := Put(form, arrayKey, List(AddItem(items, template)));
    }

    /** `removeArrayItem(arrayKey, index)`. */
    method RemoveArrayItem(arrayKey: string, index: int)
      requires var a := Lookup(form, arrayKey); a.Some? && a.value.List?
      modifies this
      ensures var items := Lookup(old(form), arrayKey).value.items;
        State() == old(State()).(form := Put(old(form), arrayKey, List(RemoveItem(items, index))))
      ensures old(Valid()) ==> Valid()
    {
      var items := Lookup(form, arrayKey).value.items;
      form := Put(form, arrayKey, List(RemoveItem(items, index)));
    }

    /** Back, rendered only after the first step. */
    method Back()
      requires step > 0
      modifies this
      ensures State() == old(State()).(step := old(step) - 1)
      ensures old(Valid()) ==> Valid()
    {
      step := step - 1;
    }

    /** Next, rendered only before the last step. */
    method Next()
      requires step < LastStep
      modifies this
      ensures State() == old(State()).(step := Min(old(step) + 1, LastStep))
      ensures old(Valid()) ==> Valid()
    {
      step := Min(step + 1, LastStep);
    }

    /** `handleSubmit`, with the reply to the post. A failed check moves to its
        step with its toast and sends nothing. Otherwise the body is posted; a
        2xx reply resets the form and the step and marks the application
        submitted, and any rejection shows the failure toast. */
    method HandleSubmit(reply: Reply<()>)
      modifies this
      ensures SubmitCheck(old(form)).Some? ==>
        var stop := SubmitCheck(old(form)).value;
        State() == old(State()).(step := stop.step, toasts := old(toasts) + [Toast(ErrorToast, stop.message)])
      ensures SubmitCheck(old(form)).None? && Resolved(reply) ==>
        State() == WizardState(0, true, InitialForm, old(toasts) + [Toast(SuccessToast, SubmittedMessage)],
                               old(requests) + [FileEntries(old(form)) + LoopEntries(old(form))])
      ensures SubmitCheck(old(form)).None? && !Resolved(reply) ==>
        State() == old(State()).(toasts := old(toasts) + [Toast(ErrorToast, SubmitFailedMessage)],
                                 requests := old(requests) + [FileEntries(old(form)) + LoopEntries(old(form))])
      ensures old(Valid()) ==> Valid()
    {
      var check := SubmitCheck(form);
      if check.Some? {
        toasts := toasts + [Toast(ErrorToast, check.value.message)];
        step := check.value.step;
        return;
      }
      var fd := BuildFormData(form);
      requests := requests + [fd];
      if Resolved(reply) {
        form := InitialForm;
        step := 0;
        submitted := true;
        toasts := toasts + [Toast(SuccessToast, SubmittedMessage)];
      } else {
        toasts := toasts + [Toast(ErrorToast, SubmitFailedMessage)];
      }
    }

    /** "Submit Another" on the success overlay. */
    method SubmitAnother()
      modifies this
      ensures State() == old(State()).(submitted := false, form := InitialForm, step := 0)
      ensures Valid()
    {
      submitted := false;
      form := InitialForm;
      step := 0;
    }

    /** The Submit button replaces Next on the last step. */
    predicate SubmitButtonShown()
      reads this
    {
      step >= LastStep
    }
  }
}
