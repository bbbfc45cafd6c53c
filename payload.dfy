/**
 * The payload that the submit handler builds from the form before posting it
 * (script.js, `handleAnalysis`, the object literal `payload`).
 */
module Payload {
  import opened Wrappers
  import opened Text

  /**
   * The form's values by field name. A field the form lacks is absent from the
   * map, which is where `FormData.get` gives `null`.
   */
  type Form = map<string, string>

  function Field(form: Form, name: string): Option<string> {
    if name in form then Some(form[name]) else None
  }

  /** The JavaScript number `Number(text)`; the numeric coercion itself is not modelled. */
  datatype NumberOf = NumberOf(text: Option<string>)

  datatype Vitals = Vitals(
    heartRate: Option<string>,
    systolic: Option<string>,
    diastolic: Option<string>,
    temperature: Option<string>)

  datatype Labs = Labs(ldl: Option<string>, hdl: Option<string>, a1c: Option<string>)

  /** The request body; `None` in an optional field is JSON `null`. */
  datatype Payload = Payload(
    patientName: string,
    age: NumberOf,
    gender: Option<string>,
    vitals: Vitals,
    labs: Labs,
    symptoms: seq<string>,
    notes: string)

  const SymptomSeparator: char := ','

  /**
   * JavaScript's `value || null` on a form value: the empty string and a
   * missing value become `null`, every other string (`"0"` included) is kept.
   */
  function OrNull(v: Option<string>): (r: Option<string>)
    ensures r.None? <==> (v.None? || v.value == "")
    ensures r.Some? ==> r == v
  {
    if v == Some("") then None else v
  }

  /** A symptom as the payload carries it: non-empty, trimmed, free of separators. */
  predicate IsSymptom(x: string) {
    x != "" && IsTrimmed(x) && SymptomSeparator !in x
  }

  /** `.map((symptom) => symptom.trim()).filter(Boolean)`: trim every segment and drop the empty ones. */
  function Clean(segments: seq<string>): (r: seq<string>)
    ensures |r| <= |segments|
    ensures forall k :: 0 <= k < |r| ==> r[k] != "" && IsTrimmed(r[k])
  {
    if segments == [] then []
    else Kept(Trim(segments[0])) + Clean(segments[1..])
  }

  /** Trimming and dropping never introduce a separator. */
  lemma {:induction false} CleanKeepsSeparatorFree(segments: seq<string>)
    requires forall k :: 0 <= k < |segments| ==> SymptomSeparator !in segments[k]
    ensures forall k :: 0 <= k < |Clean(segments)| ==> SymptomSeparator !in Clean(segments)[k]
    decreases |segments|
  {
    if segments != [] {
      TrimKeepsAbsent(segments[0], SymptomSeparator);
      assert forall k :: 0 <= k < |segments[1..]| ==> segments[1..][k] == segments[k + 1];
      CleanKeepsSeparatorFree(segments[1..]);
    }
  }

  /** `.filter(Boolean)` on one trimmed segment. */
  function Kept(t: string): seq<string> {
    if t == "" then [] else [t]
  }

  /** Cleaning works segment by segment, so concatenated segment lists clean to concatenated results. */
  lemma {:induction false} CleanAppend(xs: seq<string>, ys: seq<string>)
    ensures Clean(xs + ys) == Clean(xs) + Clean(ys)
    decreases |xs|
  {
    if xs != [] {
      assert (xs + ys)[0] == xs[0];
      assert (xs + ys)[1..] == xs[1..] + ys;
      CleanAppend(xs[1..], ys);
      calc {
        Clean(xs + ys);
        Kept(Trim(xs[0])) + Clean(xs[1..] + ys);
        Kept(Trim(xs[0])) + (Clean(xs[1..]) + Clean(ys));
        (Kept(Trim(xs[0])) + Clean(xs[1..])) + Clean(ys);
      }
    } else {
      assert xs + ys == ys;
    }
  }

  /**
   * The symptoms field: `(value || "").split(",")`, each segment trimmed,
   * empty segments dropped. Every symptom is non-empty, trimmed and has no comma.
   */
  function ParseSymptoms(field: Option<string>): (r: seq<string>)
    ensures forall k :: 0 <= k < |r| ==> IsSymptom(r[k])
    ensures field.None? ==> r == []
  {
    var text := field.GetOr("");
    var segments := Split(text, SymptomSeparator);
    CleanKeepsSeparatorFree(segments);
    var r := Clean(segments);
    assert field.None? ==> r == [] by {
      if field.None? {
        assert text == "";
        assert segments == [""];
        assert Clean([""]) == Kept(Trim("")) + Clean([]);
      }
    }
    r
  }

  /** Text on either side of a comma parses independently, in order: no symptom is reordered. */
  lemma ParseSymptomsConcat(a: string, b: string)
    ensures ParseSymptoms(Some(a + [SymptomSeparator] + b))
         == ParseSymptoms(Some(a)) + ParseSymptoms(Some(b))
  {
    SplitConcat(a, b, SymptomSeparator);
    CleanAppend(Split(a, SymptomSeparator), Split(b, SymptomSeparator));
  }

  /** A comma-free text is one segment: it yields its trimmed self, or nothing when it is blank. */
  lemma ParseSymptomsSegment(s: string)
    requires SymptomSeparator !in s
    ensures ParseSymptoms(Some(s)) == if Trim(s) == "" then [] else [Trim(s)]
  {
  }

  /** Leading whitespace before a single segment does not change what it parses to. */
  lemma SegmentAfterWhitespace(w: string, x: string)
    requires AllWhitespace(w) && SymptomSeparator !in x
    ensures ParseSymptoms(Some(w + x)) == ParseSymptoms(Some(x))
  {
    assert SymptomSeparator !in w + x;
    TrimAfterWhitespace(w, x);
    ParseSymptomsSegment(w + x);
    ParseSymptomsSegment(x);
  }

  /** Leading whitespace before the first segment never changes the parsed symptoms. */
  lemma ParseSymptomsAfterWhitespace(w: string, t: string)
    requires AllWhitespace(w)
    ensures ParseSymptoms(Some(w + t)) == ParseSymptoms(Some(t))
  {
    var i := IndexOf(t, SymptomSeparator);
    if i < |t| {
      var first, rest := t[..i], t[i + 1..];
      assert t == first + [SymptomSeparator] + rest by {
        assert t[i] == SymptomSeparator;
      }
      assert ParseSymptoms(Some(w + t)) == ParseSymptoms(Some(w + first)) + ParseSymptoms(Some(rest)) by {
        assert w + t == (w + first) + [SymptomSeparator] + rest;
        ParseSymptomsConcat(w + first, rest);
      }
      ParseSymptomsConcat(first, rest);
      SegmentAfterWhitespace(w, first);
    } else {
      SegmentAfterWhitespace(w, t);
    }
  }

  /** A single clean symptom parses to itself. */
  lemma ParseSymptomsOfOne(x: string)
    requires IsSymptom(x)
    ensures ParseSymptoms(Some(x)) == [x]
  {
    assert "" + x + "" == x;
    TrimOfPadded("", x, "");
    ParseSymptomsSegment(x);
  }

  /** A symptom list written the way a user types it, `"a, b, c"`, parses back to the same list. */
  lemma {:induction false} ParseSymptomsOfList(xs: seq<string>)
    requires forall k :: 0 <= k < |xs| ==> IsSymptom(xs[k])
    ensures ParseSymptoms(Some(Join(xs, ", "))) == xs
    decreases |xs|
  {
    if xs == [] {
      assert Join(xs, ", ") == "";
      ParseSymptomsSegment("");
    } else if |xs| == 1 {
      assert Join(xs, ", ") == xs[0];
      ParseSymptomsOfOne(xs[0]);
    } else {
      var x, tail := xs[0], Join(xs[1..], ", ");
      assert Join(xs, ", ") == x + [SymptomSeparator] + (" " + tail);
      assert xs == [x] + xs[1..];
      assert AllWhitespace(" ");
      ParseSymptomsConcat(x, " " + tail);
      ParseSymptomsAfterWhitespace(" ", tail);
      ParseSymptomsOfList(xs[1..]);
      ParseSymptomsOfOne(x);
    }
  }

  /** A trailing comma adds no symptom. */
  lemma ParseSymptomsTrailingComma(t: string)
    ensures ParseSymptoms(Some(t + [SymptomSeparator])) == ParseSymptoms(Some(t))
  {
    var empty := "";
    assert t + [SymptomSeparator] == t + [SymptomSeparator] + empty;
    ParseSymptomsSegment(empty);
    ParseSymptomsConcat(t, empty);
  }

  /** A blank segment in front adds no symptom. */
  lemma ParseSymptomsBlankFirst(w: string, t: string)
    requires AllWhitespace(w) && SymptomSeparator !in w
    ensures ParseSymptoms(Some(w + [SymptomSeparator] + t)) == ParseSymptoms(Some(t))
  {
    TrimEmpty(w);
    ParseSymptomsSegment(w);
    ParseSymptomsConcat(w, t);
  }

  /** A blank segment between two symptoms and a trailing comma are dropped: `"f, , c,"` gives `[f, c]`. */
  lemma ParseSymptomsDropsBlanks(f: string, c: string)
    requires IsSymptom(f) && IsSymptom(c)
    ensures ParseSymptoms(Some(f + ", , " + c + ",")) == [f, c]
  {
    var sep, space := [SymptomSeparator], " ";
    var last := (space + c) + sep;
    var middle := space + sep + last;
    assert f + ", , " + c + "," == f + sep + middle;
    assert AllWhitespace(space);
    assert ParseSymptoms(Some(last)) == [c] by {
      ParseSymptomsTrailingComma(space + c);
      ParseSymptomsAfterWhitespace(space, c);
      ParseSymptomsOfOne(c);
    }
    ParseSymptomsBlankFirst(space, last);
    ParseSymptomsOfOne(f);
    ParseSymptomsConcat(f, middle);
  }

  /** The worked example: `"fever, , chills,"` gives `["fever", "chills"]`. */
  lemma ParseSymptomsExample(text: string)
    requires text == "fever, , chills,"
    ensures ParseSymptoms(Some(text)) == ["fever", "chills"]
  {
    assert IsSymptom("fever") && IsSymptom("chills");
    assert text == "fever" + ", , " + "chills" + ",";
    ParseSymptomsDropsBlanks("fever", "chills");
  }

  /**
   * The payload invariant: the name is trimmed, no vital sign or lab value is
   * the empty string (blank ones are `null`), and every symptom is clean.
   */
  predicate IsWellFormed(p: Payload) {
    && IsTrimmed(p.patientName)
    && p.vitals.heartRate != Some("") && p.vitals.systolic != Some("")
    && p.vitals.diastolic != Some("") && p.vitals.temperature != Some("")
    && p.labs.ldl != Some("") && p.labs.hdl != Some("") && p.labs.a1c != Some("")
    && forall k :: 0 <= k < |p.symptoms| ==> IsSymptom(p.symptoms[k])
  }

  /**
   * The payload built from the form, or `None` when the form has no patient
   * name: `formData.get("patientName").trim()` then throws before anything
   * else happens.
   */
  function BuildPayload(form: Form): (r: Option<Payload>)
    ensures r.None? <==> "patientName" !in form
    ensures r.Some? ==> IsWellFormed(r.value)
    ensures r.Some? ==> r.value.patientName == Trim(form["patientName"])
    ensures r.Some? ==> r.value.age == NumberOf(Field(form, "age"))
    ensures r.Some? ==> r.value.gender == Field(form, "gender")
    ensures r.Some? ==> r.value.vitals == Vitals(
              OrNull(Field(form, "heartRate")), OrNull(Field(form, "systolic")),
              OrNull(Field(form, "diastolic")), OrNull(Field(form, "temperature")))
    ensures r.Some? ==> r.value.labs == Labs(
              OrNull(Field(form, "ldl")), OrNull(Field(form, "hdl")), OrNull(Field(form, "a1c")))
    ensures r.Some? ==> r.value.symptoms == ParseSymptoms(Field(form, "symptoms"))
    ensures r.Some? ==> r.value.notes == Field(form, "notes").GetOr("")
  {
    match Field(form, "patientName")
    case None => None
    case Some(name) =>
      Some(Payload(
        patientName := Trim(name),
        age := NumberOf(Field(form, "age")),
        gender := Field(form, "gender"),
        vitals := Vitals(
          heartRate := OrNull(Field(form, "heartRate")),
          systolic := OrNull(Field(form, "systolic")),
          diastolic := OrNull(Field(form, "diastolic")),
          temperature := OrNull(Field(form, "temperature"))),
        labs := Labs(
          ldl := OrNull(Field(form, "ldl")),
          hdl := OrNull(Field(form, "hdl")),
          a1c := OrNull(Field(form, "a1c"))),
        symptoms := ParseSymptoms(Field(form, "symptoms")),
        notes := Field(form, "notes").GetOr("")))
  }
}
