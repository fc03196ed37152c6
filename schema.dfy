/**
 * A structural validator for tool arguments: an object schema lists the
 * members a tool accepts, each with a value rule and whether it may be
 * missing. It stands in for the schema library the server uses; one schema
 * value both describes the tool to clients and drives validation.
 */
module Schema {
  import opened Wrappers
  import opened Json

  /** The value rule of one declared member. */
  datatype FieldType = StringField(minLength: nat) | BooleanField

  datatype Field = Field(name: string, ty: FieldType, optional: bool, description: string)

  datatype ObjectSchema = ObjectSchema(fields: seq<Field>, description: string)

  datatype IssueKind =
    | InvalidType(expected: JsonType, received: JsonType)
    | TooSmall(minimum: nat)

  /** One validation failure; `path` is [] for the arguments value itself and [name] for a member. */
  datatype Issue = Issue(path: seq<string>, kind: IssueKind)

  function Lookup(m: map<string, Json>, k: string): (r: Option<Json>)
    ensures r.Some? <==> k in m
    ensures r.Some? ==> r.value == m[k]
  {
    if k in m then Some(m[k]) else None
  }

  function ExpectedType(t: FieldType): JsonType {
    match t
    case StringField(_) => String
    case BooleanField => Boolean
  }

  /** Reference rule: the member value v (None when the member is missing) satisfies f. */
  predicate FieldAccepts(f: Field, v: Option<Json>) {
    match v
    case None => f.optional
    case Some(j) =>
      match f.ty
      case StringField(min) => j.JString? && |j.str| >= min
      case BooleanField => j.JBool?
  }

  /** Every declared member of fields is accepted in m. */
  predicate AllAccepted(fields: seq<Field>, m: map<string, Json>) {
    forall i :: 0 <= i < |fields| ==> FieldAccepts(fields[i], Lookup(m, fields[i].name))
  }

  /** Reference rule for a whole arguments value: an object whose every declared member is accepted. */
  predicate Accepts(s: ObjectSchema, j: Json) {
    j.JObject? && AllAccepted(s.fields, j.members)
  }

  function FieldNames(fields: seq<Field>): set<string> {
    set i | 0 <= i < |fields| :: fields[i].name
  }

  /**
   * The issue reported for one member, if any. A value of the wrong type is
   * reported as a type mismatch and its length is not examined.
   */
  function CheckField(f: Field, v: Option<Json>): (r: Option<Issue>)
    ensures r.None? <==> FieldAccepts(f, v)
    ensures r.Some? ==> r.value.path == [f.name]
    ensures r.Some? && r.value.kind.InvalidType? ==>
              r.value.kind.expected == ExpectedType(f.ty) && r.value.kind.received != r.value.kind.expected
    ensures r.Some? && r.value.kind.TooSmall? ==> v.Some? && v.value.JString? && f.ty == StringField(r.value.kind.minimum)
  {
    match v
    case None =>
      if f.optional then None else Some(Issue([f.name], InvalidType(ExpectedType(f.ty), Undefined)))
    case Some(j) =>
      match f.ty
      case StringField(min) =>
        if !j.JString? then Some(Issue([f.name], InvalidType(String, TypeOf(j))))
        else if |j.str| < min then Some(Issue([f.name], TooSmall(min)))
        else None
      case BooleanField =>
        if j.JBool? then None else Some(Issue([f.name], InvalidType(Boolean, TypeOf(j))))
  }

  /**
   * The issues of all declared members, in declaration order: validation
   * does not stop at the first member that fails.
   */
  function CheckFields(fields: seq<Field>, m: map<string, Json>): (r: seq<Issue>)
    ensures |r| <= |fields|
    ensures r == [] <==> AllAccepted(fields, m)
  {
    if fields == [] then []
    else
      var rest := CheckFields(fields[1..], m);
      assert AllAccepted(fields, m) <==> FieldAccepts(fields[0], Lookup(m, fields[0].name)) && AllAccepted(fields[1..], m) by {
        if FieldAccepts(fields[0], Lookup(m, fields[0].name)) && AllAccepted(fields[1..], m) {
          forall i | 0 <= i < |fields| ensures FieldAccepts(fields[i], Lookup(m, fields[i].name)) {
            if i > 0 { assert fields[i] == fields[1..][i - 1]; }
          }
        }
        if AllAccepted(fields, m) {
          forall i | 0 <= i < |fields[1..]| ensures FieldAccepts(fields[1..][i], Lookup(m, fields[1..][i].name)) {
            assert fields[1..][i] == fields[i + 1];
          }
        }
      }
      match CheckField(fields[0], Lookup(m, fields[0].name))
      case None => rest
      case Some(issue) => [issue] + rest
  }

  /** Every issue names a declared member that fails its rule. */
  lemma {:induction false} CheckFieldsSound(fields: seq<Field>, m: map<string, Json>, k: nat)
    requires k < |CheckFields(fields, m)|
    ensures exists i :: 0 <= i < |fields| && CheckFields(fields, m)[k].path == [fields[i].name]
                        && !FieldAccepts(fields[i], Lookup(m, fields[i].name))
  {
    var head := CheckField(fields[0], Lookup(m, fields[0].name));
    if head.Some? && k == 0 {
      assert CheckFields(fields, m)[0] == head.value;
    } else {
      var k' := if head.Some? then k - 1 else k;
      assert CheckFields(fields, m)[k] == CheckFields(fields[1..], m)[k'];
      CheckFieldsSound(fields[1..], m, k');
      var i :| 0 <= i < |fields[1..]| && CheckFields(fields[1..], m)[k'].path == [fields[1..][i].name]
               && !FieldAccepts(fields[1..][i], Lookup(m, fields[1..][i].name));
      assert fields[1..][i] == fields[i + 1];
    }
  }

  /** Every declared member that fails its rule is named by an issue. */
  lemma {:induction false} CheckFieldsComplete(fields: seq<Field>, m: map<string, Json>, i: nat)
    requires i < |fields| && !FieldAccepts(fields[i], Lookup(m, fields[i].name))
    ensures exists k :: 0 <= k < |CheckFields(fields, m)| && CheckFields(fields, m)[k].path == [fields[i].name]
  {
    var head := CheckField(fields[0], Lookup(m, fields[0].name));
    if i == 0 {
      assert CheckFields(fields, m)[0] == head.value;
    } else {
      assert fields[1..][i - 1] == fields[i];
      CheckFieldsComplete(fields[1..], m, i - 1);
      var k :| 0 <= k < |CheckFields(fields[1..], m)| && CheckFields(fields[1..], m)[k].path == [fields[i].name];
      var k' := if head.Some? then k + 1 else k;
      assert CheckFields(fields, m)[k'] == CheckFields(fields[1..], m)[k];
    }
  }

  /** No two declared members share a name, as with the keys of an object literal. */
  predicate DistinctNames(fields: seq<Field>) {
    forall a, b :: 0 <= a < b < |fields| ==> fields[a].name != fields[b].name
  }

  /** With distinct member names, no member is named by two issues. */
  lemma {:induction false} CheckFieldsOnePerMember(fields: seq<Field>, m: map<string, Json>)
    requires DistinctNames(fields)
    ensures forall a, b :: 0 <= a < b < |CheckFields(fields, m)| ==>
              CheckFields(fields, m)[a].path != CheckFields(fields, m)[b].path
  {
    if fields != [] {
      var tail := fields[1..];
      assert DistinctNames(tail) by {
        forall a, b | 0 <= a < b < |tail| ensures tail[a].name != tail[b].name {
          assert tail[a] == fields[a + 1] && tail[b] == fields[b + 1];
        }
      }
      CheckFieldsOnePerMember(tail, m);
      var head := CheckField(fields[0], Lookup(m, fields[0].name));
      if head.Some? {
        var r := CheckFields(fields, m);
        var rest := CheckFields(tail, m);
        assert r == [head.value] + rest;
        forall b | 0 < b < |r| ensures r[0].path != r[b].path {
          CheckFieldsSound(tail, m, b - 1);
          var i :| 0 <= i < |tail| && rest[b - 1].path == [tail[i].name]
                   && !FieldAccepts(tail[i], Lookup(m, tail[i].name));
          assert tail[i] == fields[i + 1];
          assert r[b] == rest[b - 1];
          assert [fields[0].name] != [tail[i].name];
        }
        forall a, b | 0 < a < b < |r| ensures r[a].path != r[b].path {
          assert r[a] == rest[a - 1] && r[b] == rest[b - 1];
        }
      }
    }
  }

  /** The parsed data: the declared members that are present; members the schema does not declare are dropped. */
  function Strip(fields: seq<Field>, m: map<string, Json>): (d: map<string, Json>)
    ensures d.Keys == m.Keys * FieldNames(fields)
    ensures forall k :: k in d ==> d[k] == m[k]
  {
    map k | k in m && k in FieldNames(fields) :: m[k]
  }

  /** Validates j against s: the stripped data when every rule holds, otherwise a non-empty list of issues. */
  function Parse(s: ObjectSchema, j: Json): (r: Result<map<string, Json>, seq<Issue>>)
    ensures r.Success? <==> Accepts(s, j)
    ensures r.Failure? ==> |r.error| > 0
    ensures !j.JObject? ==> r.Failure? && |r.error| == 1 && r.error[0].path == []
    ensures r.Success? ==> r.value.Keys == j.members.Keys * FieldNames(s.fields)
    ensures r.Success? ==> forall k :: k in r.value ==> r.value[k] == j.members[k]
  {
    match j
    case JObject(m) =>
      var issues := CheckFields(s.fields, m);
      if issues == [] then Success(Strip(s.fields, m)) else Failure(issues)
    case _ => Failure([Issue([], InvalidType(Object, TypeOf(j)))])
  }

  /** A member the schema does not declare has no influence on the issues found. */
  lemma {:induction false} CheckFieldsIgnoresUndeclared(fields: seq<Field>, m: map<string, Json>, k: string, v: Json)
    requires k !in FieldNames(fields)
    ensures CheckFields(fields, m[k := v]) == CheckFields(fields, m)
  {
    if fields != [] {
      assert fields[0].name in FieldNames(fields);
      assert FieldNames(fields[1..]) <= FieldNames(fields) by {
        forall n | n in FieldNames(fields[1..]) ensures n in FieldNames(fields) {
          var i :| 0 <= i < |fields[1..]| && fields[1..][i].name == n;
          assert fields[i + 1].name == n;
        }
      }
      CheckFieldsIgnoresUndeclared(fields[1..], m, k, v);
      assert Lookup(m[k := v], fields[0].name) == Lookup(m, fields[0].name);
    }
  }

  /** Adding a member the schema does not declare leaves the outcome of validation unchanged. */
  lemma ParseIgnoresUndeclared(s: ObjectSchema, m: map<string, Json>, k: string, v: Json)
    requires k !in FieldNames(s.fields)
    ensures Parse(s, JObject(m[k := v])) == Parse(s, JObject(m))
  {
    CheckFieldsIgnoresUndeclared(s.fields, m, k, v);
    assert Strip(s.fields, m[k := v]) == Strip(s.fields, m);
  }

  function RenderType(t: JsonType): string {
    match t
    case Undefined => "undefined"
    case Null => "null"
    case Boolean => "boolean"
    case Number => "number"
    case String => "string"
    case Array => "array"
    case Object => "object"
  }

  function RenderPath(path: seq<string>): string {
    if path == [] then "(root)"
    else if |path| == 1 then path[0]
    else path[0] + "." + RenderPath(path[1..])
  }

  function RenderIssue(issue: Issue): string {
    RenderPath(issue.path) + ": " +
    match issue.kind
    case InvalidType(expected, received) => "expected " + RenderType(expected) + ", received " + RenderType(received)
    case TooSmall(_) => "string is shorter than the minimum length"
  }

  /** A human-readable description of a list of issues, one after another. */
  function RenderIssues(issues: seq<Issue>): string {
    if issues == [] then ""
    else if |issues| == 1 then RenderIssue(issues[0])
    else RenderIssue(issues[0]) + "; " + RenderIssues(issues[1..])
  }
}
