/**
 What a flow request is and what validation makes of it (flow_workspace_schema
 and the request half of flow_workspace_service). A request is the JSON object
 the caller sent; its digest is taken over that object, before any validation.
 Some of what validation says depends on the database of the moment.
 */
module FlowRequests {
  import opened Wrappers
  import opened Text

  type RequestId = nat
  // Cleaned field values are compared, never looked into.
  type Values = nat
  type Name = string

  /** A JSON value; the None of a float is NaN or an infinity. */
  datatype Json =
    | Null
    | Boolean(b: bool)
    | Integer(i: int)
    | Float(x: Option<real>)
    | Str(s: string)
    | List(items: seq<Json>)
    | Object(fields: map<string, Json>)

  type Data = map<string, Json>

  function Get(data: Data, key: string): Json {
    if key in data then data[key] else Null
  }

  /** `id` is what request_key makes of the object's `requestId`. */
  datatype Request = Request(id: RequestId, data: Data)

  /** SHA-256 of the object's canonical JSON, taken as injective. */
  datatype Digest = Sha256(data: Data)

  // ----- Tasks and positions -----

  datatype Task = Dataset | Website | Pixel | Form | Crm | Filter | Server | Ad

  datatype Position = Position(x: real, y: real)

  predicate InTemplate(filterEnabled: bool, k: Task) {
    filterEnabled || k != Filter
  }

  function TaskName(k: Task): string {
    match k
    case Dataset => "dataset"
    case Website => "website"
    case Pixel => "pixel"
    case Form => "form"
    case Crm => "crm"
    case Filter => "filter"
    case Server => "server"
    case Ad => "ad"
  }

  /** The task a JSON value names, if it names one. */
  function TaskOf(v: Json): (r: Option<Task>)
    ensures forall k: Task :: r == Some(k) <==> v == Str(TaskName(k))
  {
    if v == Str("dataset") then Some(Dataset)
    else if v == Str("website") then Some(Website)
    else if v == Str("pixel") then Some(Pixel)
    else if v == Str("form") then Some(Form)
    else if v == Str("crm") then Some(Crm)
    else if v == Str("filter") then Some(Filter)
    else if v == Str("server") then Some(Server)
    else if v == Str("ad") then Some(Ad)
    else None
  }

  /** A finite number; booleans are none. */
  function Finite(v: Json): Option<real> {
    match v
    case Integer(i) => Some(i as real)
    case Float(x) => x
    case _ => None
  }

  predicate IsPosition(v: Json) {
    v.Object? && v.fields.Keys == {"x", "y"} && Finite(v.fields["x"]).Some? && Finite(v.fields["y"]).Some?
  }

  /** The positions of a JSON object whose keys are all tasks. */
  function Layout(v: Json): (r: Option<map<Task, Position>>)
    ensures r.Some? <==> v.Object? && forall key :: key in v.fields ==> TaskOf(Str(key)).Some? && IsPosition(v.fields[key])
    ensures r.Some? ==> forall k :: k in r.value <==> TaskName(k) in v.fields
  {
    if !v.Object? || !(forall key :: key in v.fields ==> TaskOf(Str(key)).Some? && IsPosition(v.fields[key])) then None
    else Some(map k: Task | TaskName(k) in v.fields ::
                Position(Finite(v.fields[TaskName(k)].fields["x"]).value, Finite(v.fields[TaskName(k)].fields["y"]).value))
  }

  // ----- Names -----

  function Word(s: string): (w: string)
    ensures |w| <= |s| && (s != "" && !White(s[0]) ==> w != "")
  {
    if s == "" || White(s[0]) then "" else [s[0]] + Word(s[1..])
  }

  function Words(s: string): seq<string>
    decreases |s|
  {
    if s == "" then []
    else if White(s[0]) then Words(s[1..])
    else [Word(s)] + Words(s[|Word(s)|..])
  }

  function Spaced(words: seq<string>): string {
    if words == [] then "" else if |words| == 1 then words[0] else words[0] + " " + Spaced(words[1..])
  }

  function CleanName(v: Json): Option<Name> {
    if !v.Str? || !(2 <= |Spaced(Words(v.s))| <= 200) then None else Some(Spaced(Words(v.s)))
  }

  // ----- Reading a request -----

  datatype Action =
    | Rename(name: Option<Name>)
    | Guide(closed: bool)
    | Archive
    | Restore
    | Duplicate
    | SavePixelDraft(values: Values)
    | SavePixelStep(values: Values, formValues: Values)
    | PixelStale
    | SaveConfig(task: Task, cleaned: Option<Values>)
    | SaveDraft(task: Task, cleaned: Option<Values>)
    | SetPositions(layout: Option<map<Task, Position>>)
    | SetFilter(enabled: Option<bool>)
    | Evidence(task: Task, wellFormed: bool)
    | Preflight
    | Malformed

  /**
   What the surrounding tables say at the moment of the request: `cleaned` is
   what clean_values makes of its values, `pixelValues` and `formValues` what the
   pixel step makes of them; None is a validation error.
   */
  datatype Outside = Outside(
    isAdmin: bool,
    cleaned: Option<Values>,
    bindOk: bool,
    runtimeVersion: nat,
    pixelValues: Option<Values>,
    formValues: Option<Values>,
    pixelBindingChanged: bool,
    createOk: bool,
    copyName: Name)

  predicate Duplicates(data: Data) {
    Get(data, "action") == Str("duplicate")
  }

  function PixelAction(data: Data, out: Outside): Action {
    if Get(data, "expectedRuntimeVersion") != Integer(out.runtimeVersion) then PixelStale
    else if Get(data, "intent") !in {Str("draft"), Str("save")} || out.pixelValues.None? then Malformed
    else if Get(data, "intent") == Str("draft") then SavePixelDraft(out.pixelValues.value)
    else if out.formValues.None? then Malformed
    else SavePixelStep(out.pixelValues.value, out.formValues.value)
  }

  predicate EvidenceOk(data: Data) {
    var note := if "note" in data then data["note"] else Str("");
    var reference := if "reference" in data then data["reference"] else Str("");
    && Get(data, "result") in {Str("observed"), Str("issue"), Str("pending")}
    && note.Str? && 8 <= |Strip(note.s)| <= 2000
    && reference.Str? && |reference.s| <= 500
  }

  /** The action an object asks for, read against the database of the moment. */
  function ActionOf(data: Data, out: Outside): (a: Action)
    ensures a.Duplicate? <==> Duplicates(data)
  {
    var node := TaskOf(Get(data, "nodeKey"));
    var enabled := Get(data, "enabled");
    match Get(data, "action")
    case Str(kind) =>
      if kind == "rename" then Rename(CleanName(Get(data, "name")))
      else if kind == "close_guide" then Guide(true)
      else if kind == "reopen_guide" then Guide(false)
      else if kind == "archive" then Archive
      else if kind == "restore" then Restore
      else if kind == "duplicate" then Duplicate
      else if kind == "save_pixel_step" then PixelAction(data, out)
      else if kind == "save_config" && node.Some? then SaveConfig(node.value, out.cleaned)
      else if kind == "save_draft" && node.Some? then SaveDraft(node.value, out.cleaned)
      else if kind == "positions" then SetPositions(Layout(Get(data, "positions")))
      else if kind == "filter" then SetFilter(if enabled.Boolean? then Some(enabled.b) else None)
      else if kind == "evidence" && node.Some? then Evidence(node.value, EvidenceOk(data))
      else if kind == "preflight" then Preflight
      else Malformed
    case _ => Malformed
  }
}
