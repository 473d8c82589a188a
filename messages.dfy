/**
 * The message map each policy-change operation builds, `{method, params}`,
 * as the value handed to the JSON serialiser, and the reading of that map
 * that a receiving application does.
 */
module Messages {
  import opened Wrappers

  /** Java's `int`. */
  newtype Int32 = x: int | -0x8000_0000 <= x < 0x8000_0000

  /** The Java values that end up in the message map. */
  datatype Value =
    | Str(s: string)
    | Int(n: Int32)
    | StrArray(items: seq<string>)
    | RuleList(rules: seq<seq<string>>)
    | Obj(fields: map<string, Value>)

  /** One call of the watcher's policy-change interface, with its arguments. */
  datatype PolicyChange =
    | Reload
    | AddPolicy(sec: string, ptype: string, params: seq<string>)
    | RemovePolicy(sec: string, ptype: string, params: seq<string>)
    | RemoveFilteredPolicy(sec: string, ptype: string, fieldIndex: Int32, fieldValues: seq<string>)
    | SavePolicy
    | AddPolicies(sec: string, ptype: string, rules: seq<seq<string>>)
    | RemovePolicies(sec: string, ptype: string, rules: seq<seq<string>>)

  /** The `method` string each operation sends: the name of the Java method. */
  function MethodName(change: PolicyChange): string {
    match change
    case Reload => "update"
    case AddPolicy(_, _, _) => "updateForAddPolicy"
    case RemovePolicy(_, _, _) => "updateForRemovePolicy"
    case RemoveFilteredPolicy(_, _, _, _) => "updateForRemoveFilteredPolicy"
    case SavePolicy => "updateForSavePolicy"
    case AddPolicies(_, _, _) => "updateForAddPolicies"
    case RemovePolicies(_, _, _) => "updateForRemovePolicies"
  }

  /** The `params` map each operation fills. */
  function Params(change: PolicyChange): map<string, Value> {
    match change
    case Reload => map[]
    case AddPolicy(sec, ptype, params) =>
      map["sec" := Str(sec), "ptype" := Str(ptype), "params" := StrArray(params)]
    case RemovePolicy(sec, ptype, params) =>
      map["sec" := Str(sec), "ptype" := Str(ptype), "params" := StrArray(params)]
    case RemoveFilteredPolicy(sec, ptype, fieldIndex, fieldValues) =>
      map["sec" := Str(sec), "ptype" := Str(ptype), "fieldIndex" := Int(fieldIndex),
          "fieldValues" := StrArray(fieldValues)]
    case SavePolicy => map[]
    case AddPolicies(sec, ptype, rules) =>
      map["sec" := Str(sec), "ptype" := Str(ptype), "rules" := RuleList(rules)]
    case RemovePolicies(sec, ptype, rules) =>
      map["sec" := Str(sec), "ptype" := Str(ptype), "rules" := RuleList(rules)]
  }

  /** The message map sendMessage builds around a method name and a params map. */
  function Envelope(methodName: string, params: map<string, Value>): (v: Value)
    ensures v.Obj? && v.fields.Keys == {"method", "params"}
    ensures v.fields["method"] == Str(methodName) && v.fields["params"] == Obj(params)
  {
    Obj(map["method" := Str(methodName), "params" := Obj(params)])
  }

  /** The message map sent for one policy change. */
  function MessageOf(change: PolicyChange): Value {
    Envelope(MethodName(change), Params(change))
  }

  /**
   * The key set of every message: `method` and `params`, and per method the
   * fixed keys of `params`.
   */
  lemma MessageKeys(change: PolicyChange)
    ensures MessageOf(change).Obj?
    ensures MessageOf(change).fields.Keys == {"method", "params"}
    ensures MessageOf(change).fields["params"].Obj?
    ensures var keys := MessageOf(change).fields["params"].fields.Keys;
            match change
            case Reload => keys == {}
            case SavePolicy => keys == {}
            case AddPolicy(_, _, _) => keys == {"sec", "ptype", "params"}
            case RemovePolicy(_, _, _) => keys == {"sec", "ptype", "params"}
            case RemoveFilteredPolicy(_, _, _, _) => keys == {"sec", "ptype", "fieldIndex", "fieldValues"}
            case AddPolicies(_, _, _) => keys == {"sec", "ptype", "rules"}
            case RemovePolicies(_, _, _) => keys == {"sec", "ptype", "rules"}
  {
  }

  function StrField(fields: map<string, Value>, key: string): Option<string> {
    if key in fields && fields[key].Str? then Some(fields[key].s) else None
  }

  function StrArrayField(fields: map<string, Value>, key: string): Option<seq<string>> {
    if key in fields && fields[key].StrArray? then Some(fields[key].items) else None
  }

  function RuleListField(fields: map<string, Value>, key: string): Option<seq<seq<string>>> {
    if key in fields && fields[key].RuleList? then Some(fields[key].rules) else None
  }

  function IntField(fields: map<string, Value>, key: string): Option<Int32> {
    if key in fields && fields[key].Int? then Some(fields[key].n) else None
  }

  /** The change a params map describes for the method name m, if it is well formed. */
  function ChangeFrom(m: string, p: map<string, Value>): Option<PolicyChange> {
    if m == "update" then Some(Reload)
    else if m == "updateForSavePolicy" then Some(SavePolicy)
    else
      match (StrField(p, "sec"), StrField(p, "ptype"))
      case (Some(sec), Some(ptype)) =>
        if m == "updateForAddPolicy" || m == "updateForRemovePolicy" then
          match StrArrayField(p, "params")
          case Some(params) =>
            Some(if m == "updateForAddPolicy" then AddPolicy(sec, ptype, params)
                 else RemovePolicy(sec, ptype, params))
          case None => None
        else if m == "updateForRemoveFilteredPolicy" then
          match (IntField(p, "fieldIndex"), StrArrayField(p, "fieldValues"))
          case (Some(i), Some(values)) => Some(RemoveFilteredPolicy(sec, ptype, i, values))
          case _ => None
        else if m == "updateForAddPolicies" || m == "updateForRemovePolicies" then
          match RuleListField(p, "rules")
          case Some(rules) =>
            Some(if m == "updateForAddPolicies" then AddPolicies(sec, ptype, rules)
                 else RemovePolicies(sec, ptype, rules))
          case None => None
        else None
      case _ => None
  }

  /** What a receiver reads out of a message map: the method and its params. */
  function ChangeOf(v: Value): Option<PolicyChange> {
    if v.Obj? && "method" in v.fields && "params" in v.fields
       && v.fields["method"].Str? && v.fields["params"].Obj?
    then ChangeFrom(v.fields["method"].s, v.fields["params"].fields)
    else None
  }

  /**
   * Reading a message map gives back the change it was built from: the
   * method, and every params field with its sequences in their order.
   */
  lemma ChangeOfMessageOf(change: PolicyChange)
    ensures ChangeOf(MessageOf(change)) == Some(change)
  {
    match change
    case Reload =>
    case SavePolicy =>
    case AddPolicy(_, _, _) => ChangeOfRuleMessage(change);
    case RemovePolicy(_, _, _) => ChangeOfRuleMessage(change);
    case RemoveFilteredPolicy(_, _, _, _) => ChangeOfFilterMessage(change);
    case AddPolicies(_, _, _) => ChangeOfRulesMessage(change);
    case RemovePolicies(_, _, _) => ChangeOfRulesMessage(change);
  }

  /** The envelope's two fields, and the `sec` and `ptype` of a change that has them. */
  lemma EnvelopeFields(change: PolicyChange)
    ensures MessageOf(change).fields["method"] == Str(MethodName(change))
    ensures MessageOf(change).fields["params"] == Obj(Params(change))
    ensures !change.Reload? && !change.SavePolicy? ==>
              StrField(Params(change), "sec") == Some(change.sec)
              && StrField(Params(change), "ptype") == Some(change.ptype)
  {
  }

  lemma ChangeOfRuleMessage(change: PolicyChange)
    requires change.AddPolicy? || change.RemovePolicy?
    ensures ChangeOf(MessageOf(change)) == Some(change)
  {
    EnvelopeFields(change);
    assert StrArrayField(Params(change), "params") == Some(change.params);
  }

  lemma ChangeOfFilterMessage(change: PolicyChange)
    requires change.RemoveFilteredPolicy?
    ensures ChangeOf(MessageOf(change)) == Some(change)
  {
    EnvelopeFields(change);
    assert IntField(Params(change), "fieldIndex") == Some(change.fieldIndex);
    assert StrArrayField(Params(change), "fieldValues") == Some(change.fieldValues);
  }

  lemma ChangeOfRulesMessage(change: PolicyChange)
    requires change.AddPolicies? || change.RemovePolicies?
    ensures ChangeOf(MessageOf(change)) == Some(change)
  {
    EnvelopeFields(change);
    assert RuleListField(Params(change), "rules") == Some(change.rules);
  }

  /** Different changes are sent as different message maps. */
  lemma MessageOfInjective(a: PolicyChange, b: PolicyChange)
    requires MessageOf(a) == MessageOf(b)
    ensures a == b
  {
    ChangeOfMessageOf(a);
    ChangeOfMessageOf(b);
  }
}
