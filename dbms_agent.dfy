/**
 * The database wrapper for the `DBMS_CLOUD_AI_AGENT` objects (tool, task,
 * agent, team): the attributes are normalised to the JSON text the PL/SQL
 * side expects, and each operation becomes one stored-procedure call.
 */
module DbmsAgent {
  import opened Strings
  import opened PyJson

  /** The four kinds of agent objects the wrapper can create. */
  datatype ObjectKind = ToolObject | TaskObject | AgentObject | TeamObject

  /** A `cursor.callproc(procedure, args)` call. */
  datatype ProcCall = ProcCall(procedure: string, args: seq<string>)

  /** `_to_json_str(attributes)`: the CLOB text handed to PL/SQL. */
  function ToJsonStr(attributes: PyVal): (r: string)
    ensures !attributes.PStr? ==> r != ""
  {
    match attributes
    case PNone => "{}"
    case PStr(s) => s
    case _ => Dumps(attributes)
  }

  /** Missing attributes become the empty JSON object. */
  lemma ToJsonStrOfNone()
    ensures ToJsonStr(PNone) == "{}"
  {
  }

  /** Text is passed through untouched, so normalising twice is normalising once. */
  lemma ToJsonStrIdempotent(attributes: PyVal)
    ensures ToJsonStr(PStr(ToJsonStr(attributes))) == ToJsonStr(attributes)
    ensures attributes.PStr? ==> ToJsonStr(attributes) == attributes.s
  {
  }

  /** Every other value is sent as its `json.dumps` text; a dict as a JSON object. */
  lemma ToJsonStrSerialises(attributes: PyVal)
    requires !attributes.PNone? && !attributes.PStr?
    ensures ToJsonStr(attributes) == Dumps(attributes)
    ensures attributes.PDict? ==> ToJsonStr(attributes)[0] == '{' && ToJsonStr(attributes)[|ToJsonStr(attributes)| - 1] == '}'
  {
  }

  /** The procedure that drops, creates and enables an object of each kind. */
  function Procedure(kind: ObjectKind): string {
    match kind
    case ToolObject => "ORA26AI.SP_AI_TOOL"
    case TaskObject => "ORA26AI.SP_AI_TASK"
    case AgentObject => "ORA26AI.SP_AI_AGENT"
    case TeamObject => "ORA26AI.SP_AI_TEAM"
  }

  /** `create_tool`, `create_task`, `create_agent` and `create_team`: the call each makes. */
  function CreateCall(kind: ObjectKind, name: string, attributes: PyVal): (r: ProcCall)
    ensures |r.args| == 2 && r.args[0] == name
    ensures r.args[1] == ToJsonStr(attributes)
  {
    ProcCall(Procedure(kind), [name, ToJsonStr(attributes)])
  }

  /** Each kind has its own procedure, so a call tells which kind of object it creates. */
  lemma CreateCallKind(k1: ObjectKind, n1: string, a1: PyVal, k2: ObjectKind, n2: string, a2: PyVal)
    requires CreateCall(k1, n1, a1) == CreateCall(k2, n2, a2)
    ensures k1 == k2 && n1 == n2
  {
    var p1, p2 := Procedure(k1), Procedure(k2);
    assert p1 == p2;
    if k1 != k2 {
      ProcedureTail(k1);
      ProcedureTail(k2);
      assert false;
    }
  }

  /** The third-last character of each procedure name, where the names differ. */
  lemma ProcedureTail(kind: ObjectKind)
    ensures var p := Procedure(kind);
      |p| >= 3 &&
      p[|p| - 3] == match kind
        case ToolObject => 'O'
        case TaskObject => 'A'
        case AgentObject => 'E'
        case TeamObject => 'E'
    ensures kind == AgentObject ==> |Procedure(kind)| == 19
    ensures kind != AgentObject ==> |Procedure(kind)| == 18
  {
  }

  /** `validate_name`: the name-uniqueness check, which raises when the name is taken. */
  function ValidateCall(objectType: string, objectName: string): (r: ProcCall)
    ensures r.args == [objectType, objectName]
    ensures forall kind :: r.procedure != Procedure(kind)
  {
    var r := ProcCall("ORA26AI.SP_AI_NAME_VALIDATE", [objectType, objectName]);
    forall kind ensures r.procedure != Procedure(kind) {
      ProcedureTail(kind);
    }
    r
  }
}
