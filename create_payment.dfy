/** The server route that asks the payment-reference service for a
    reference (app/api/create-payment/route.js): it validates the request,
    forwards four fields upstream and maps the upstream reply, or any thrown
    exception, to the HTTP response. The upstream service is an input. */
module CreatePayment {
  import opened Wrappers
  import opened Text

  /** A JSON value as JavaScript sees it once parsed; `Undefined` stands for
      a field that is not there. Numbers are integers in this model. */
  datatype JsValue =
    | Undefined | Null | Bool(b: bool) | Num(n: int) | Str(s: string) | Object
    | Array(elems: seq<JsValue>)

  /** A request or response body: text that is not JSON, the JSON `null`,
      an object with its fields, or any other JSON value. */
  datatype Body = NotJson | JsonNull | JsonObject(fields: map<string, JsValue>) | JsonOther(v: JsValue)

  /** What the upstream call gives: `fetch` rejects, or a reply with its
      `ok` flag, status code and body. */
  datatype Upstream = FetchFailed | Replied(ok: bool, status: int, body: Body)

  datatype ResponseBody = ErrorBody(error: JsValue) | Passthrough(json: Body)

  datatype Response = Response(status: int, body: ResponseBody)

  /** The response, and the body sent upstream when the route sent one. */
  datatype Handled = Handled(response: Response, forwarded: Option<map<string, JsValue>>)

  const ValidationMessage := "Missing or invalid fields: ticket_id and amount are required"
  const UpstreamDefaultMessage := "Failed to create payment reference"
  const InternalErrorMessage := "Internal Server Error"
  const ForwardedKeys: set<string> := {"ticket_id", "amount", "passenger_name", "passenger_email"}

  /** JavaScript truthiness. */
  predicate Truthy(v: JsValue) {
    match v
    case Undefined => false
    case Null => false
    case Bool(b) => b
    case Num(n) => n != 0
    case Str(s) => s != ""
    case Object => true
    case Array(_) => true
  }

  /** How `String` and `Array.prototype.join` write a value: null and
      undefined inside an array as "", an array as its elements joined with
      ",", any other object as "[object Object]". */
  function ElementText(v: JsValue): string
    decreases v
  {
    match v
    case Undefined => ""
    case Null => ""
    case Bool(b) => if b then "true" else "false"
    case Num(n) => IntToString(n)
    case Str(s) => s
    case Object => "[object Object]"
    case Array(elems) =>
      Join(seq(|elems|, i requires 0 <= i < |elems| => ElementText(elems[i])), ",")
  }

  /** The base a prefix letter after "0" names: x for 16, o for 8, b for 2;
      0 for any other character. */
  function Radix(c: char): nat {
    if c == 'x' || c == 'X' then 16
    else if c == 'o' || c == 'O' then 8
    else if c == 'b' || c == 'B' then 2
    else 0
  }

  /** The value of a digit in bases up to 16, 16 for a character that is no
      such digit. */
  function RadixDigit(c: char): nat {
    if '0' <= c <= '9' then c as int - '0' as int
    else if 'a' <= c <= 'f' then c as int - 'a' as int + 10
    else if 'A' <= c <= 'F' then c as int - 'A' as int + 10
    else 16
  }

  predicate RadixDigits(s: string, radix: nat) {
    forall i :: 0 <= i < |s| ==> RadixDigit(s[i]) < radix
  }

  /** The value of digits in the given base. */
  function RadixValue(s: string, radix: nat): nat
    requires RadixDigits(s, radix)
    decreases |s|
  {
    if s == [] then 0
    else RadixValue(s[..|s| - 1], radix) * radix + RadixDigit(s[|s| - 1])
  }

  /** `Number(s)` for the integer forms JavaScript reads from text: the
      white space around it dropped, "" read as 0, decimal digits with an
      optional "+" or "-", or "0x", "0o" or "0b" followed by digits of that
      base; None stands for NaN. */
  function TextNumber(s: string): Option<int> {
    var t := Trim(s);
    if t == "" then Some(0)
    else if |t| >= 3 && t[0] == '0' && Radix(t[1]) > 0 && RadixDigits(t[2..], Radix(t[1])) then
      Some(RadixValue(t[2..], Radix(t[1])))
    else if |t| >= 2 && t[0] == '+' && AllDigits(t[1..]) then Some(DigitsValue(t[1..]))
    else ParseInt(t)
  }

  /** `v <= 0`: a boolean or null as a number, a string read by
      `TextNumber`, an array or object by its text; NaN compares false. */
  predicate AtMostZero(v: JsValue) {
    match v
    case Undefined => false
    case Null => true
    case Bool(b) => !b
    case Num(n) => n <= 0
    case _ =>
      match TextNumber(ElementText(v))
      case Some(n) => n <= 0
      case None => false
  }

  /** A one-element array is written as its element. */
  lemma ElementTextSingle(v: JsValue)
    ensures ElementText(Array([v])) == ElementText(v)
  {
    var parts := seq(1, i requires 0 <= i < 1 => ElementText([v][i]));
    assert parts == [ElementText(v)];
  }

  /** An empty array is written as "". */
  lemma ElementTextEmpty()
    ensures ElementText(Array([])) == ""
  {
  }

  /** The decimal text of an integer reads back as that integer. */
  lemma TextNumberOfIntText(n: int)
    ensures TextNumber(IntToString(n)) == Some(n)
  {
    var t := IntToString(n);
    assert IsTrimmed(t) by {
      assert t[0] == '-' || IsDigit(t[0]);
      assert t[|t| - 1] == '-' || IsDigit(t[|t| - 1]);
    }
    TrimOfTrimmed(t);
    ParseIntOfIntToString(n);
    assert t[0] != '+';
    assert |t| >= 3 ==> (t[1] == '-' || IsDigit(t[1]));
  }

  /** An amount written as decimal text compares with 0 as the number does. */
  lemma AtMostZeroOfIntText(n: int)
    ensures AtMostZero(Str(IntToString(n))) <==> n <= 0
  {
    TextNumberOfIntText(n);
  }

  /** An array of one element compares with 0 as the element's text does. */
  lemma AtMostZeroOfSingleton(v: JsValue)
    ensures AtMostZero(Array([v])) <==> AtMostZero(Str(ElementText(v)))
  {
    ElementTextSingle(v);
  }

  /** An array holding one number compares with 0 as the number does. */
  lemma AtMostZeroOfNumberInArray(n: int)
    ensures AtMostZero(Array([Num(n)])) <==> n <= 0
  {
    AtMostZeroOfSingleton(Num(n));
    AtMostZeroOfIntText(n);
  }

  /** A trimmed text that is not empty is read as it stands. */
  lemma TextNumberTrimmed(t: string)
    requires t != [] && IsTrimmed(t)
    ensures TextNumber(t) ==
      if |t| >= 3 && t[0] == '0' && Radix(t[1]) > 0 && RadixDigits(t[2..], Radix(t[1])) then
        Some(RadixValue(t[2..], Radix(t[1])))
      else if |t| >= 2 && t[0] == '+' && AllDigits(t[1..]) then Some(DigitsValue(t[1..]))
      else ParseInt(t)
  {
    TrimOfTrimmed(t);
  }

  predicate Zeros(d: string) {
    d != [] && forall i :: 0 <= i < |d| ==> d[i] == '0'
  }

  /** Zeros read as 0, in decimal and in any base. */
  lemma {:induction false} ZerosValue(d: string, radix: nat)
    requires Zeros(d) && radix > 1
    ensures AllDigits(d) && DigitsValue(d) == 0
    ensures RadixDigits(d, radix) && RadixValue(d, radix) == 0
    decreases |d|
  {
    if |d| > 1 {
      ZerosValue(d[..|d| - 1], radix);
    }
  }

  /** An empty array reads as 0. */
  lemma AtMostZeroEmptyArray()
    ensures AtMostZero(Array([]))
  {
    ElementTextEmpty();
    assert TextNumber("") == Some(0) by { TrimOfTrimmed(""); }
  }

  /** "+" followed by zeros reads as 0. */
  lemma AtMostZeroPlusZeros(d: string)
    requires Zeros(d)
    ensures AtMostZero(Str("+" + d))
  {
    var t := "+" + d;
    ZerosValue(d, 10);
    assert t[1..] == d;
    TextNumberTrimmed(t);
  }

  /** "0x", "0o" or "0b" followed by zeros reads as 0. */
  lemma AtMostZeroPrefixedZeros(p: char, d: string)
    requires Radix(p) > 0 && Zeros(d)
    ensures AtMostZero(Str(['0', p] + d))
  {
    var t := ['0', p] + d;
    ZerosValue(d, Radix(p));
    assert t[2..] == d;
    TextNumberTrimmed(t);
  }

  /** "0x", "0o" or "0b" followed by digits of that base not all zero reads
      as a positive number. */
  lemma PrefixedPositive(p: char, d: string, k: nat)
    requires Radix(p) > 0 && RadixDigits(d, Radix(p)) && k < |d| && d[k] != '0'
    ensures !AtMostZero(Str(['0', p] + d))
  {
    var t := ['0', p] + d;
    assert t[2..] == d;
    RadixValuePositive(d, Radix(p), k);
    TextNumberTrimmed(t);
  }

  lemma {:induction false} RadixValuePositive(d: string, radix: nat, k: nat)
    requires RadixDigits(d, radix) && k < |d| && d[k] != '0'
    ensures RadixValue(d, radix) > 0
    decreases |d|
  {
    var front := d[..|d| - 1];
    assert RadixDigits(front, radix) by {
      forall i | 0 <= i < |front| ensures RadixDigit(front[i]) < radix {
        assert front[i] == d[i];
      }
    }
    var v := RadixValue(front, radix);
    var last := RadixDigit(d[|d| - 1]);
    assert RadixValue(d, radix) == v * radix + last;
    if k < |d| - 1 {
      assert front[k] == d[k];
      RadixValuePositive(front, radix, k);
      assert RadixDigit(d[k]) < radix;
      ProductPositive(v, radix);
    } else {
      assert RadixDigit(d[k]) > 0;
    }
  }

  lemma ProductPositive(a: nat, b: nat)
    requires a > 0 && b > 0
    ensures a * b > 0
  {
  }


  /** A field of an object, `Undefined` when absent. */
  function Field(fields: map<string, JsValue>, key: string): JsValue {
    if key in fields then fields[key] else Undefined
  }

  /** The fields destructuring finds in a body that is not `null`: those of
      an object, none for any other value. */
  function FieldsOf(body: Body): map<string, JsValue> {
    if body.JsonObject? then body.fields else map[]
  }

  /** `!ticket_id || !amount || amount <= 0` */
  predicate Invalid(fields: map<string, JsValue>) {
    !Truthy(Field(fields, "ticket_id")) || !Truthy(Field(fields, "amount"))
    || AtMostZero(Field(fields, "amount"))
  }

  /** `JSON.stringify({ ticket_id, amount, passenger_name, passenger_email })`:
      the four fields, with those that are undefined dropped. */
  function Forwarded(fields: map<string, JsValue>): (out: map<string, JsValue>)
    ensures out.Keys <= ForwardedKeys
    ensures forall k :: k in ForwardedKeys && Field(fields, k) != Undefined ==>
      k in out && out[k] == fields[k]
    ensures forall k :: k in out ==> out[k] != Undefined
  {
    map k | k in ForwardedKeys && Field(fields, k) != Undefined :: fields[k]
  }

  /** POST: the response for a request body and the upstream outcome. */
  function Post(request: Body, upstream: Upstream): (h: Handled)
    ensures (request.NotJson? || request.JsonNull?) ==>
      h == Handled(Response(500, ErrorBody(Str(InternalErrorMessage))), None)
    ensures !request.NotJson? && !request.JsonNull? && Invalid(FieldsOf(request)) ==>
      h == Handled(Response(400, ErrorBody(Str(ValidationMessage))), None)
    ensures h.forwarded.Some? <==>
      !request.NotJson? && !request.JsonNull? && !Invalid(FieldsOf(request))
    ensures h.forwarded.Some? ==> h.forwarded.value == Forwarded(FieldsOf(request))
    ensures h.forwarded.Some? && upstream.FetchFailed? ==>
      h.response == Response(500, ErrorBody(Str(InternalErrorMessage)))
    ensures h.forwarded.Some? && upstream.Replied? && upstream.body.NotJson? ==>
      h.response == Response(500, ErrorBody(Str(InternalErrorMessage)))
    ensures h.forwarded.Some? && upstream.Replied? && !upstream.ok && upstream.body.JsonNull? ==>
      h.response == Response(500, ErrorBody(Str(InternalErrorMessage)))
    ensures h.forwarded.Some? && upstream.Replied? && !upstream.ok && upstream.body.JsonOther? ==>
      h.response == Response(upstream.status, ErrorBody(Str(UpstreamDefaultMessage)))
    ensures h.forwarded.Some? && upstream.Replied? && upstream.ok && !upstream.body.NotJson? ==>
      h.response == Response(201, Passthrough(upstream.body))
    ensures h.forwarded.Some? && upstream.Replied? && !upstream.ok && upstream.body.JsonObject? ==>
      var e := Field(upstream.body.fields, "error");
      h.response == Response(upstream.status,
        ErrorBody(if Truthy(e) then e else Str(UpstreamDefaultMessage)))
  {
    var internalError := Response(500, ErrorBody(Str(InternalErrorMessage)));
    if request.NotJson? || request.JsonNull? then Handled(internalError, None)
    else
      var fields := FieldsOf(request);
      if Invalid(fields) then Handled(Response(400, ErrorBody(Str(ValidationMessage))), None)
      else
        var sent := Some(Forwarded(fields));
        match upstream
        case FetchFailed => Handled(internalError, sent)
        case Replied(ok, status, body) =>
          if body.NotJson? then Handled(internalError, sent)
          else if ok then Handled(Response(201, Passthrough(body)), sent)
          else if body.JsonNull? then Handled(internalError, sent)
          else
            var e := Field(FieldsOf(body), "error");
            Handled(Response(status, ErrorBody(if Truthy(e) then e else Str(UpstreamDefaultMessage))), sent)
  }

  /** Every response is a 201 carrying the upstream body, or an error body
      with status 400, 500 or the upstream's own failing status. */
  lemma PostStatuses(request: Body, upstream: Upstream)
    ensures var h := Post(request, upstream);
      || (h.response.status == 201 && h.response.body.Passthrough?)
      || (h.response.body.ErrorBody? &&
          (h.response.status in {400, 500}
           || (upstream.Replied? && !upstream.ok && h.response.status == upstream.status)))
  {
  }

  /** A request whose amount is an empty array, or "+" followed by zeros,
      is refused with 400 and nothing is forwarded. */
  lemma PostRefusesZeroForms(id: JsValue, zeros: string, upstream: Upstream)
    requires Zeros(zeros)
    ensures Post(JsonObject(map["ticket_id" := id, "amount" := Array([])]), upstream)
      == Handled(Response(400, ErrorBody(Str(ValidationMessage))), None)
    ensures Post(JsonObject(map["ticket_id" := id, "amount" := Str("+" + zeros)]), upstream)
      == Handled(Response(400, ErrorBody(Str(ValidationMessage))), None)
  {
    AtMostZeroEmptyArray();
    AtMostZeroPlusZeros(zeros);
  }
}
