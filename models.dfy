/** The two records exchanged with the remote caller: the execution request PSExecutionParameters
    and the execution result PSExecutionResults, with the JSON shape Newtonsoft gives the latter.
    JSON text is not modelled; a JSON document is the value it denotes. */
module Models {
  import opened Wrappers

  /** A JSON value; an object keeps its members in serialisation order. */
  datatype Json =
    | JNull
    | JBool(b: bool)
    | JString(s: string)
    | JArray(items: seq<Json>)
    | JObject(members: seq<(string, Json)>)

  /** PSExecutionResults. A null array is None. */
  datatype ExecutionResults = ExecutionResults(completed: bool, output: Option<seq<string>>, errors: Option<seq<string>>)

  /** The content of a decoded request payload: each property may be missing or null. */
  datatype ParametersDocument = ParametersDocument(
    scriptName: Option<string>,
    executionPolicy: Option<string>,
    parameters: Option<map<string, string>>)

  /** PSExecutionParameters: the object Newtonsoft builds from the payload. The executor
      rewrites ScriptName in place; ExecutionPolicy is carried but never read. */
  class ExecutionParameters {
    var scriptName: Option<string>
    var executionPolicy: Option<string>
    var parameters: Option<map<string, string>>

    constructor (document: ParametersDocument)
      ensures scriptName == document.scriptName
      ensures executionPolicy == document.executionPolicy
      ensures parameters == document.parameters
    {
      scriptName := document.scriptName;
      executionPolicy := document.executionPolicy;
      parameters := document.parameters;
    }
  }

  /** A string[] serialised: an array of strings, in order. */
  function StringArray(ss: seq<string>): (j: Json)
    ensures j.JArray? && |j.items| == |ss|
    ensures forall i :: 0 <= i < |ss| ==> j.items[i] == JString(ss[i])
  {
    JArray(seq(|ss|, i requires 0 <= i < |ss| => JString(ss[i])))
  }

  /** A string[] property: null when the array is null. */
  function NullableStringArray(ss: Option<seq<string>>): Json {
    if ss.None? then JNull else StringArray(ss.value)
  }

  /** JsonConvert.SerializeObject(PSExecutionResults): Completed and Output are always written,
      Output as null when it is null; Errors carries NullValueHandling.Ignore, so it is left
      out when null and written otherwise, even when empty. */
  function Serialize(r: ExecutionResults): Json {
    JObject([("Completed", JBool(r.completed)), ("Output", NullableStringArray(r.output))]
            + (if r.errors.Some? then [("Errors", StringArray(r.errors.value))] else []))
  }

  /** The value of the first member with the given key. */
  function Member(members: seq<(string, Json)>, key: string): (r: Option<Json>)
    ensures r.None? <==> forall i :: 0 <= i < |members| ==> members[i].0 != key
  {
    if members == [] then None
    else if members[0].0 == key then Some(members[0].1)
    else Member(members[1..], key)
  }

  /** Reads back a string array: every item must be a string. */
  function ReadStringArray(j: Json): Option<seq<string>> {
    if j.JArray? && forall i :: 0 <= i < |j.items| ==> j.items[i].JString?
    then Some(seq(|j.items|, i requires 0 <= i < |j.items| && j.items[i].JString? => j.items[i].s))
    else None
  }

  /** Reads back a nullable string array property; a missing property reads as null. */
  function ReadNullableStringArray(j: Option<Json>): Option<Option<seq<string>>> {
    if j.None? || j.value.JNull? then Some(None)
    else
      var ss := ReadStringArray(j.value);
      if ss.Some? then Some(Some(ss.value)) else None
  }

  /** JsonConvert.DeserializeObject<PSExecutionResults>, on the values it can read: a missing
      Completed reads as false, a missing Output or Errors as null. */
  function Deserialize(j: Json): Option<ExecutionResults> {
    if !j.JObject? then None
    else
      var completed := Member(j.members, "Completed");
      var output := ReadNullableStringArray(Member(j.members, "Output"));
      var errors := ReadNullableStringArray(Member(j.members, "Errors"));
      if completed.Some? && !completed.value.JBool? then None
      else if output.None? || errors.None? then None
      else Some(ExecutionResults(completed.Some? && completed.value.b, output.value, errors.value))
  }

  /** Reading back a serialised string array gives the same strings. */
  lemma StringArrayRoundTrip(ss: seq<string>)
    ensures ReadStringArray(StringArray(ss)) == Some(ss)
  {
    var j := StringArray(ss);
    assert forall i :: 0 <= i < |j.items| ==> j.items[i].JString?;
    var back := seq(|j.items|, i requires 0 <= i < |j.items| && j.items[i].JString? => j.items[i].s);
    assert back == ss;
  }

  /** Which members a serialised result has: Completed and Output always (Output null when
      null), Errors exactly when it is not null, an empty array included. */
  lemma SerializedMembers(r: ExecutionResults)
    ensures Member(Serialize(r).members, "Completed") == Some(JBool(r.completed))
    ensures Member(Serialize(r).members, "Output") == Some(NullableStringArray(r.output))
    ensures r.errors.None? ==> Member(Serialize(r).members, "Errors").None?
    ensures r.errors.Some? ==> Member(Serialize(r).members, "Errors") == Some(StringArray(r.errors.value))
    ensures r.errors == Some([]) ==> Member(Serialize(r).members, "Errors") == Some(JArray([]))
  {
    var ms := Serialize(r).members;
    assert ms[0].0 == "Completed" && ms[1].0 == "Output";
    assert "Completed" != "Output" && "Completed" != "Errors" && "Output" != "Errors";
    assert Member(ms, "Errors") == Member(ms[1..], "Errors");
    assert ms[1..][0] == ms[1];
    assert Member(ms[1..], "Errors") == Member(ms[1..][1..], "Errors");
    if r.errors.Some? {
      assert ms[1..][1..] == [("Errors", StringArray(r.errors.value))];
      if r.errors.value == [] {
        assert StringArray([]).items == [];
      }
    } else {
      assert ms[1..][1..] == [];
    }
  }

  /** Serialising a result and reading it back gives the same result: omitting a null Errors
      loses nothing, and an empty Errors comes back empty, never as an error. */
  lemma SerializeRoundTrip(r: ExecutionResults)
    ensures Deserialize(Serialize(r)) == Some(r)
  {
    SerializedMembers(r);
    if r.output.Some? { StringArrayRoundTrip(r.output.value); }
    if r.errors.Some? {
      StringArrayRoundTrip(r.errors.value);
    }
  }
}
