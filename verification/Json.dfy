/** JSON values as the hub sees them once parsed, the hub's classifiers of them, and the
    messages it builds. Text parsing and printing stay outside: a text that does not parse to
    an object arrives as `None`. */
module Json {
  datatype Option<+T> = None | Some(value: T)

  datatype Value =
    | Null
    | Bool(b: bool)
    | Int(n: int)
    | Float(r: real)
    | Str(s: string)
    | Arr(items: seq<Value>)
    | Obj(fields: map<string, Value>)

  type Object = map<string, Value>

  function Get(obj: Object, key: string): Option<Value> {
    if key in obj then Some(obj[key]) else None
  }

  /** A key of a value that may not be an object at all. */
  function GetIn(value: Value, key: string): Option<Value> {
    if value.Obj? then Get(value.fields, key) else None
  }

  function AsStr(value: Option<Value>): Option<string> {
    if value.Some? && value.value.Str? then Some(value.value.s) else None
  }

  function AsNat(value: Option<Value>): Option<int> {
    if value.Some? && value.value.Int? && value.value.n >= 0 then Some(value.value.n) else None
  }

  function Method(obj: Object): Option<string> {
    AsStr(Get(obj, "method"))
  }

  function Id(obj: Object): Option<Value> {
    Get(obj, "id")
  }

  function SetId(obj: Object, id: Value): Object {
    obj["id" := id]
  }

  function SessionUnder(obj: Object, key: string): Option<string> {
    var outer := Get(obj, key);
    if outer.Some? then AsStr(GetIn(outer.value, "sessionId")) else None
  }

  /** `params.sessionId` if it is a string, else `result.sessionId` if that is one. */
  function SessionIn(obj: Object): Option<string> {
    var inParams := SessionUnder(obj, "params");
    if inParams.Some? then inParams else SessionUnder(obj, "result")
  }

  /** The object under this key has this string as its `sessionId`. */
  predicate NamesUnder(obj: Object, key: string, session: string) {
    && key in obj && obj[key].Obj?
    && "sessionId" in obj[key].fields && obj[key].fields["sessionId"] == Str(session)
  }

  /** The session a message is about: `params` come first, and only without one there does `result` count. */
  ghost predicate AboutSession(obj: Object, session: string) {
    || NamesUnder(obj, "params", session)
    || (NamesUnder(obj, "result", session) && forall other :: !NamesUnder(obj, "params", other))
  }

  lemma SessionIs(obj: Object, session: string)
    ensures SessionIn(obj) == Some(session) <==> AboutSession(obj, session)
  {
    if SessionUnder(obj, "params").Some? {
      assert NamesUnder(obj, "params", SessionUnder(obj, "params").value);
    }
  }

  /** A method name without the one-underscore wrapper. */
  function Unwrapped(name: string): string {
    if |name| > 0 && name[0] == '_' then name[1..] else name
  }

  predicate IsInteraction(name: string) {
    Unwrapped(name) in {
      "session/request_permission", "x.ai/ask_user_question", "x.ai/exit_plan_mode", "x.ai/mcp/elicit"
    }
  }

  lemma WithOrWithout(name: string, inner: string, wrapped: string)
    requires |inner| > 0 && inner[0] != '_' && wrapped == "_" + inner
    ensures Unwrapped(name) == inner <==> name == inner || name == wrapped
  {
    if |name| > 0 && name[0] == '_' { assert name == "_" + name[1..]; }
  }

  /** The questions that go to every watcher, each also with one underscore in front. */
  lemma InteractionNames(name: string)
    ensures IsInteraction(name) <==>
              || name == "session/request_permission" || name == "_session/request_permission"
              || name == "x.ai/ask_user_question" || name == "_x.ai/ask_user_question"
              || name == "x.ai/exit_plan_mode" || name == "_x.ai/exit_plan_mode"
              || name == "x.ai/mcp/elicit" || name == "_x.ai/mcp/elicit"
  {
    hide Unwrapped;
    WithOrWithout(name, "session/request_permission", "_session/request_permission");
    WithOrWithout(name, "x.ai/ask_user_question", "_x.ai/ask_user_question");
    WithOrWithout(name, "x.ai/exit_plan_mode", "_x.ai/exit_plan_mode");
    WithOrWithout(name, "x.ai/mcp/elicit", "_x.ai/mcp/elicit");
  }

  /** The notifications that are session updates. */
  lemma UpdateNames(name: string)
    ensures Unwrapped(name) == "session/update" <==> name == "session/update" || name == "_session/update"
  {
    WithOrWithout(name, "session/update", "_session/update");
  }

  // The three shapes a message from home can take, told apart by method and id alone.

  predicate IsRequest(obj: Object) {
    Method(obj).Some? && Id(obj).Some?
  }

  predicate IsNotification(obj: Object) {
    Method(obj).Some? && Id(obj).None?
  }

  predicate IsResult(obj: Object) {
    Method(obj).None? && Id(obj).Some?
  }

  // A phone's answer must also carry a result or an error.
  predicate IsReply(obj: Object) {
    IsResult(obj) && ("result" in obj || "error" in obj)
  }

  function Digit(d: nat): char
    requires d < 10
  {
    ['0', '1', '2', '3', '4', '5', '6', '7', '8', '9'][d]
  }

  function Decimal(n: int): (digits: string)
    ensures |digits| > 0
    decreases n < 0, if n < 0 then -n else n
  {
    if n < 0 then "-" + Decimal(-n)
    else if n < 10 then [Digit(n)] else Decimal(n / 10) + [Digit(n % 10)]
  }

  /** The number a decimal numeral stands for. */
  function Numeral(digits: string): int {
    if digits == "" then 0 else 10 * Numeral(digits[..|digits| - 1]) + (digits[|digits| - 1] as int - '0' as int)
  }

  /** `Decimal` writes the digits of the number it is given, without leading zeros. */
  lemma {:induction false} DecimalIsNumeral(n: nat)
    ensures Numeral(Decimal(n)) == n
    ensures forall k :: 0 <= k < |Decimal(n)| ==> '0' <= Decimal(n)[k] <= '9'
    ensures Decimal(n)[0] == '0' ==> n == 0
  {
    var digits := Decimal(n);
    assert digits[|digits| - 1] as int - '0' as int == n % 10;
    if n < 10 {
      assert digits[..|digits| - 1] == "";
    } else {
      assert digits[..|digits| - 1] == Decimal(n / 10);
      DecimalIsNumeral(n / 10);
    }
  }

  lemma {:induction false} DecimalInjective(m: nat, n: nat)
    requires Decimal(m) == Decimal(n)
    ensures m == n
  {
    var dm, dn := Decimal(m), Decimal(n);
    assert dm[|dm| - 1] == Digit(m % 10) && dn[|dn| - 1] == Digit(n % 10);
    assert m % 10 == n % 10;
    if m >= 10 && n >= 10 {
      assert Decimal(m / 10) == dm[..|dm| - 1] && Decimal(n / 10) == dn[..|dn| - 1];
      DecimalInjective(m / 10, n / 10);
    }
  }

  /** The id the hub puts on the n-th question it asks a phone. */
  function QuestionId(n: int): Value {
    Str("aq:" + Decimal(n))
  }

  lemma QuestionIdInjective(m: nat, n: nat)
    requires QuestionId(m) == QuestionId(n)
    ensures m == n
  {
    assert ("aq:" + Decimal(m))[3..] == Decimal(m) && ("aq:" + Decimal(n))[3..] == Decimal(n);
    DecimalInjective(m, n);
  }
}
