/** What the three Streamlit clients share: their model list, the rendering of
    patient data into the request text, the rule that appends a clicked
    symptom to the text box, and the reading of a server reply. */
module ClientCommon {
  import opened Core
  import opened Text

  /** `MODELS` of `app/simplified_main.py` and `doctor-app/app/advanced_main.py`:
      four small models, then four medium ones. */
  const ClientModels: seq<string> := [
    "mistralai/mistral-7b-instruct:free",
    "qwen/qwen1.5-7b-chat:free",
    "anthropic/claude-3-haiku-20240307:free",
    "google/gemma-7b-it:free",
    "mistralai/mistral-small-3.1-24b-instruct:free",
    "deepseek/deepseek-chat-v3-0324:free",
    "qwen/qwen2.5-vl-32b-instruct:free",
    "cognitivecomputations/dolphin3.0-r1-mistral-24b:free"
  ]

  /** The buttons under the text box, in display order. */
  const CommonSymptoms: seq<string> := [
    "Headache", "Fever", "Cough", "Fatigue", "Nausea", "Dizziness", "Shortness of breath", "Sore throat"
  ]

  // ---------------------------------------------------------------------------
  // Patient data

  /** A patient-data dictionary in insertion order, its values already
      rendered as text. */
  type PatientData = seq<(string, string)>

  /** The `f"{k}: {v}"` rendering of each entry, in order. */
  function Pairs(data: PatientData): (r: seq<string>)
    ensures |r| == |data|
    ensures forall i :: 0 <= i < |data| ==> r[i] == data[i].0 + ": " + data[i].1
  {
    if data == [] then [] else [data[0].0 + ": " + data[0].1] + Pairs(data[1..])
  }

  /** `", ".join(...)` of the rendered entries. */
  function PatientInfo(data: PatientData): string {
    Join(Pairs(data), ", ")
  }

  /** `symptoms`, followed by a "Patient information" paragraph when there is
      any patient data. */
  function WithPatientInfo(symptoms: string, data: PatientData): string {
    if data == [] then symptoms else symptoms + "\n\nPatient information: " + PatientInfo(data)
  }

  /** Without data the text goes out unchanged; with data it keeps the
      symptoms as a prefix and ends with every entry's rendering. */
  lemma WithPatientInfoExtends(symptoms: string, data: PatientData)
    ensures data == [] ==> WithPatientInfo(symptoms, data) == symptoms
    ensures data != [] ==>
      WithPatientInfo(symptoms, data) == symptoms + "\n\nPatient information: " + PatientInfo(data) &&
      StartsWith(WithPatientInfo(symptoms, data), symptoms)
    ensures |data| == 1 ==> PatientInfo(data) == data[0].0 + ": " + data[0].1
  {
    if data != [] {
      var r := WithPatientInfo(symptoms, data);
      assert r[..|symptoms|] == symptoms;
    }
  }

  /** `patient_data[key] = value`: an existing key keeps its place, a new key
      goes last. */
  function SetEntry(data: PatientData, key: string, value: string): (r: PatientData)
    ensures (exists i :: 0 <= i < |data| && data[i].0 == key) ==> |r| == |data|
    ensures forall k :: 0 <= k < |data| && data[k].0 == key && (forall j :: 0 <= j < k ==> data[j].0 != key) ==>
      r == data[k := (key, value)]
    ensures (forall i :: 0 <= i < |data| ==> data[i].0 != key) ==> r == data + [(key, value)]
  {
    if data == [] then [(key, value)]
    else if data[0].0 == key then [(key, value)] + data[1..]
    else [data[0]] + SetEntry(data[1..], key, value)
  }

  /** After setting, the key maps to the new value: its first entry holds it. */
  lemma {:induction false} SetEntryStores(data: PatientData, key: string, value: string)
    ensures exists i :: 0 <= i < |SetEntry(data, key, value)| && SetEntry(data, key, value)[i] == (key, value) &&
                        forall j :: 0 <= j < i ==> SetEntry(data, key, value)[j].0 != key
  {
    if data != [] && data[0].0 != key {
      SetEntryStores(data[1..], key, value);
      var r := SetEntry(data[1..], key, value);
      var i :| 0 <= i < |r| && r[i] == (key, value) && forall j :: 0 <= j < i ==> r[j].0 != key;
      assert SetEntry(data, key, value) == [data[0]] + r;
      assert SetEntry(data, key, value)[i + 1] == (key, value);
    } else {
      assert SetEntry(data, key, value)[0] == (key, value);
    }
  }

  // ---------------------------------------------------------------------------
  // Appending a clicked symptom

  /** The space the click rule inserts: one, and only when the text is
      non-empty and does not already end in a space. */
  function Separator(current: string): (sep: string)
    ensures sep == "" || sep == " "
    ensures sep == " " <==> current != "" && current[|current| - 1] != ' '
  {
    if current != "" && !EndsWith(current, " ") then " " else ""
  }

  /** `current + (" " if needed) + symptom.lower()`. */
  function AppendSymptom(current: string, symptom: string): string {
    current + Separator(current) + Lower(symptom)
  }

  /** The old text is kept as a prefix, the lower-cased symptom is the suffix,
      and at most one character lies between them. */
  lemma AppendSymptomShape(current: string, symptom: string)
    ensures StartsWith(AppendSymptom(current, symptom), current)
    ensures EndsWith(AppendSymptom(current, symptom), Lower(symptom))
    ensures |AppendSymptom(current, symptom)| - |current| - |symptom| <= 1
    ensures current == "" ==> AppendSymptom(current, symptom) == Lower(symptom)
  {
    var r := AppendSymptom(current, symptom);
    assert r[..|current|] == current;
    assert r[|r| - |symptom|..] == Lower(symptom);
  }

  /** After a non-empty text the clicked symptom always follows exactly one
      space: the character before it is a space, and the symptom itself (not
      starting with a space) begins right after. An empty text gets no space. */
  lemma AppendSymptomSpacing(current: string, symptom: string)
    requires symptom != "" && symptom[0] != ' '
    ensures current != "" ==>
      var p := current + Separator(current);
      p[|p| - 1] == ' ' && AppendSymptom(current, symptom) == p + Lower(symptom) &&
      AppendSymptom(current, symptom)[|p|] != ' '
    ensures current == "" ==> AppendSymptom(current, symptom)[0] != ' '
  {
    assert LowerChar(symptom[0]) != ' ';
  }

  // ---------------------------------------------------------------------------
  // Server replies

  /** `result.get("result", "No result returned from the API.")` of a 200
      reply. */
  function ResultOrDefault(result: Option<string>): string {
    result.GetOr(NoResultText)
  }
}
