/**
 * The shared base of every operation (`AbstractAzureMediator`): typed parsing
 * of parameter text, the required/optional reading of parameters and
 * properties, the storage connection string, the lease-action lookup, request
 * conditions, and how a response or an error is written to the message context.
 */
module Mediator {

  import opened Common
  import opened Errors
  import opened Synapse

  // ---------------------------------------------------------------------------
  // parse: Integer, Double, Boolean and String
  // ---------------------------------------------------------------------------

  /** The `Class<T>` argument of `parse`. */
  datatype JavaType = IntegerType | DoubleType | BooleanType | StringType | OtherType(className: string)

  /** `Class.getName()`. */
  function TypeName(t: JavaType): string {
    match t
    case IntegerType => "java.lang.Integer"
    case DoubleType => "java.lang.Double"
    case BooleanType => "java.lang.Boolean"
    case StringType => "java.lang.String"
    case OtherType(n) => n
  }

  /** A parsed parameter. A Double keeps its text: floating point is not modelled. */
  datatype Parsed = IntValue(i: int) | DoubleText(text: string) | BoolValue(b: bool) | StringValue(s: string)

  /** The type a parsed value has. */
  function TypeOf(v: Parsed): JavaType {
    match v
    case IntValue(_) => IntegerType
    case DoubleText(_) => DoubleType
    case BoolValue(_) => BooleanType
    case StringValue(_) => StringType
  }

  predicate IsDigit(c: char) { '0' <= c <= '9' }

  predicate AllDigits(s: string) { forall i :: 0 <= i < |s| ==> IsDigit(s[i]) }

  /** The value of a string of decimal digits, most significant first. */
  function DigitsValue(s: string): nat
    requires AllDigits(s)
  {
    if s == [] then 0 else DigitsValue(s[..|s| - 1]) * 10 + (s[|s| - 1] as int - '0' as int)
  }

  /**
   * `Integer.valueOf(String)`: an optional sign followed by at least one
   * decimal digit, whose value lies in Java's `int` range; anything else
   * raises NumberFormatException (here: `None`).
   */
  function ParseInt(s: string): (r: Option<int>)
    ensures r.Some? ==> IsInt(r.value)
    ensures r.Some? ==> s != [] && var digits := if s[0] == '-' || s[0] == '+' then s[1..] else s;
                          digits != [] && AllDigits(digits)
  {
    if s == [] then None
    else
      var digits := if s[0] == '-' || s[0] == '+' then s[1..] else s;
      if digits == [] || !AllDigits(digits) then None
      else
        var n: int := if s[0] == '-' then 0 - DigitsValue(digits) as int else DigitsValue(digits);
        if IsInt(n) then Some(n) else None
  }

  /** `Integer.toString(int)`, the reference the parser is checked against. */
  function IntToString(n: int): string {
    if n < 0 then "-" + NatToString(-n) else NatToString(n)
  }

  function NatToString(n: nat): (s: string)
    ensures s != [] && AllDigits(s)
  {
    if n < 10 then [('0' as int + n) as char]
    else NatToString(n / 10) + [('0' as int + n % 10) as char]
  }

  lemma {:induction false} DigitsValueOfNatToString(n: nat)
    ensures DigitsValue(NatToString(n)) == n
  {
    if n >= 10 {
      var s := NatToString(n);
      assert s[..|s| - 1] == NatToString(n / 10);
      DigitsValueOfNatToString(n / 10);
    }
  }

  /** Every `int` written by `Integer.toString` parses back to itself. */
  lemma ParseIntRoundTrip(n: int)
    requires IsInt(n)
    ensures ParseInt(IntToString(n)) == Some(n)
  {
    var m: nat := if n < 0 then -n else n;
    var digits := NatToString(m);
    DigitsValueOfNatToString(m);
    assert IsDigit(digits[0]);
    if n < 0 {
      var s := IntToString(n);
      assert s == "-" + digits && s[1..] == digits;
    } else {
      assert IntToString(n) == digits;
    }
  }

  /** The text of a number outside the `int` range, on either side, is rejected: no wrap-around. */
  lemma ParseIntRejectsOverflow(n: int)
    requires !IsInt(n)
    ensures ParseInt(IntToString(n)) == None
  {
    if n > INT_MAX {
      DigitsValueOfNatToString(n);
    } else {
      DigitsValueOfNatToString(-n);
      assert IntToString(n)[1..] == NatToString(-n);
    }
  }

  /**
   * Any sign and digit spelling is accepted, not only the one `Integer.toString`
   * writes: a digit string reads as its value, "+" in front changes nothing,
   * and "-" in front negates it, each exactly when the result is an `int`.
   */
  lemma ParseIntOfDigits(d: string)
    requires d != [] && AllDigits(d)
    ensures ParseInt(d) == if DigitsValue(d) <= INT_MAX then Some(DigitsValue(d) as int) else None
    ensures ParseInt("+" + d) == ParseInt(d)
    ensures ParseInt("-" + d) == if DigitsValue(d) <= -INT_MIN then Some(0 - DigitsValue(d)) else None
  {
    assert IsDigit(d[0]);
    assert ("+" + d)[1..] == d;
    assert ("-" + d)[1..] == d;
  }

  /** A leading zero does not change a digit string's value. */
  lemma {:induction false} DigitsValueIgnoresLeadingZero(d: string)
    requires AllDigits(d)
    ensures AllDigits("0" + d) && DigitsValue("0" + d) == DigitsValue(d)
  {
    if d != [] {
      var s := "0" + d;
      assert s[..|s| - 1] == "0" + d[..|d| - 1];
      DigitsValueIgnoresLeadingZero(d[..|d| - 1]);
    }
  }

  /** Leading zeros are accepted and ignored, with or without a sign. */
  lemma ParseIntIgnoresLeadingZeros(d: string)
    requires d != [] && AllDigits(d)
    ensures ParseInt("0" + d) == ParseInt(d)
    ensures ParseInt("+0" + d) == ParseInt("+" + d)
    ensures ParseInt("-0" + d) == ParseInt("-" + d)
  {
    DigitsValueIgnoresLeadingZero(d);
    ParseIntOfDigits(d);
    ParseIntOfDigits("0" + d);
    assert "+0" + d == "+" + ("0" + d);
    assert "-0" + d == "-" + ("0" + d);
  }

  function AsciiLower(c: char): char {
    if 'A' <= c <= 'Z' then (c as int + 32) as char else c
  }

  /** `Boolean.valueOf(String)`: true exactly for "true" in any letter case. */
  function ParseBoolean(s: string): (r: bool)
    ensures r <==> |s| == 4 && s[0] in "tT" && s[1] in "rR" && s[2] in "uU" && s[3] in "eE"
  {
    |s| == 4 && forall i :: 0 <= i < 4 ==> AsciiLower(s[i]) == "true"[i]
  }

  /** `Boolean.toString`, the reference for `ParseBoolean`. */
  function BooleanToString(b: bool): string {
    if b then "true" else "false"
  }

  /** Boolean text parses back to its value; every other text reads as false. */
  lemma ParseBooleanRoundTrip(b: bool, s: string)
    ensures ParseBoolean(BooleanToString(b)) == b
    ensures ParseBoolean(s) ==> |s| == 4 && AsciiLower(s[0]) == 't' && AsciiLower(s[3]) == 'e'
  {
  }

  /**
   * `parse(value, type)`: `None` is the IllegalArgumentException (unsupported
   * type, or NumberFormatException for integer text).
   */
  function Parse(value: string, t: JavaType): (r: Option<Parsed>)
    ensures r.Some? ==> TypeOf(r.value) == t
    ensures t.StringType? ==> r == Some(StringValue(value))
    ensures t.OtherType? ==> r.None?
    ensures t.IntegerType? ==> (r.Some? <==> ParseInt(value).Some?)
  {
    match t
    case IntegerType => (var n := ParseInt(value); if n.Some? then Some(IntValue(n.value)) else None)
    case DoubleType => Some(DoubleText(value))
    case BooleanType => Some(BoolValue(ParseBoolean(value)))
    case StringType => Some(StringValue(value))
    case OtherType(_) => None
  }

  // ---------------------------------------------------------------------------
  // getMediatorParameter and getProperty
  // ---------------------------------------------------------------------------

  function Lookup(m: map<string, string>, key: string): Option<string> {
    if key in m then Some(m[key]) else None
  }

  /** Where a value is read from, which decides the wording of its errors. */
  datatype Source = TemplateParameter | ContextProperty

  function NotProvidedMessage(src: Source, name: string): string {
    match src
    case TemplateParameter => "Parameter " + name + " is not provided"
    case ContextProperty => "Property " + name + " is not set"
  }

  function WrongTypeMessage(src: Source, name: string, t: JavaType): string {
    match src
    case TemplateParameter => "Parameter " + name + " is not of type " + TypeName(t)
    case ContextProperty => "Property " + name + " is not of type " + TypeName(t)
  }

  /**
   * The rule both readers share: a required value that is missing or empty is
   * an error naming it; an optional one yields null without being parsed; a
   * present value yields its parsed form or an error naming its type.
   */
  function ReadValue(src: Source, raw: Option<string>, name: string, t: JavaType, optional: bool)
    : (r: Result<Option<Parsed>, string>)
    ensures IsEmpty(raw) && !optional ==> r == Failure(NotProvidedMessage(src, name))
    ensures IsEmpty(raw) && optional ==> r == Success(None)
    ensures IsNotEmpty(raw) && Parse(raw.value, t).Some? ==> r == Success(Some(Parse(raw.value, t).value))
    ensures IsNotEmpty(raw) && Parse(raw.value, t).None? ==> r == Failure(WrongTypeMessage(src, name, t))
  {
    if IsEmpty(raw) then
      if optional then Success(None) else Failure(NotProvidedMessage(src, name))
    else
      match Parse(raw.value, t)
      case Some(v) => Success(Some(v))
      case None => Failure(WrongTypeMessage(src, name, t))
  }

  /** `getMediatorParameter`: reads a template parameter. */
  function GetMediatorParameter(parameters: map<string, string>, name: string, t: JavaType, optional: bool)
    : (r: Result<Option<Parsed>, string>)
    ensures r == ReadValue(TemplateParameter, Lookup(parameters, name), name, t, optional)
    ensures r.Success? && r.value.Some? ==> TypeOf(r.value.value) == t && name in parameters
    ensures !optional && r.Success? ==> r.value.Some?
  {
    ReadValue(TemplateParameter, Lookup(parameters, name), name, t, optional)
  }

  /** `getProperty`: reads a message-context property. */
  function GetProperty(properties: map<string, string>, name: string, t: JavaType, optional: bool)
    : (r: Result<Option<Parsed>, string>)
    ensures r == ReadValue(ContextProperty, Lookup(properties, name), name, t, optional)
    ensures r.Success? && r.value.Some? ==> TypeOf(r.value.value) == t && name in properties
    ensures !optional && r.Success? ==> r.value.Some?
  {
    ReadValue(ContextProperty, Lookup(properties, name), name, t, optional)
  }

  /** A String parameter; only a required one can fail. */
  function StringParameter(parameters: map<string, string>, name: string, optional: bool)
    : (r: Result<Option<string>, string>)
    ensures optional ==> r == Success(if name in parameters && parameters[name] != "" then Some(parameters[name]) else None)
    ensures !optional ==> r == (if name in parameters && parameters[name] != "" then Success(Some(parameters[name]))
                                else Failure("Parameter " + name + " is not provided"))
  {
    var v :- GetMediatorParameter(parameters, name, StringType, optional);
    Success(if v.Some? then Some(v.value.s) else None)
  }

  /** A required String parameter. */
  function RequiredString(parameters: map<string, string>, name: string): (r: Result<string, string>)
    ensures r.Success? <==> name in parameters && parameters[name] != ""
    ensures r.Success? ==> r.value == parameters[name]
    ensures r.Failure? ==> r.error == "Parameter " + name + " is not provided"
  {
    var v :- StringParameter(parameters, name, false);
    Success(v.value)
  }

  /** An optional String parameter: never fails, empty text reads as null. */
  function OptionalString(parameters: map<string, string>, name: string): Option<string> {
    StringParameter(parameters, name, true).value
  }

  /** An optional Integer parameter: fails only on text that is not an `int`. */
  function OptionalInt(parameters: map<string, string>, name: string): (r: Result<Option<int>, string>)
    ensures r.Success? && r.value.Some? ==> IsInt(r.value.value)
    ensures r.Failure? <==> name in parameters && parameters[name] != "" && ParseInt(parameters[name]).None?
    ensures r.Failure? ==> r.error == "Parameter " + name + " is not of type java.lang.Integer"
    ensures r.Success? && r.value.Some? ==> name in parameters && ParseInt(parameters[name]) == r.value
  {
    var v :- GetMediatorParameter(parameters, name, IntegerType, true);
    Success(if v.Some? then Some(v.value.i) else None)
  }

  /** An optional Boolean parameter: never fails, empty text reads as null. */
  function OptionalBool(parameters: map<string, string>, name: string): (r: Option<bool>)
    ensures r.Some? <==> name in parameters && parameters[name] != ""
    ensures r.Some? ==> r.value == ParseBoolean(parameters[name])
  {
    var v := GetMediatorParameter(parameters, name, BooleanType, true).value;
    if v.Some? then Some(v.value.b) else None
  }

  /** The required `name` property every operation reads first. */
  function ConnectionNameProperty(properties: map<string, string>): (r: Result<string, string>)
    ensures r.Success? <==> "name" in properties && properties["name"] != ""
    ensures r.Success? ==> r.value == properties["name"]
    ensures r.Failure? ==> r.error == "Property name is not set"
  {
    var v :- GetProperty(properties, "name", StringType, false);
    Success(v.value.s)
  }

  /** `connect`: responseVariable and overwriteBody are both required before `execute` runs. */
  function ConnectArguments(parameters: map<string, string>): (r: Result<(string, bool), string>)
    ensures r.Success? <==> (IsNotEmpty(Lookup(parameters, "responseVariable"))
                             && IsNotEmpty(Lookup(parameters, "overwriteBody")))
    ensures r.Success? ==> r.value == (parameters["responseVariable"], ParseBoolean(parameters["overwriteBody"]))
    ensures IsEmpty(Lookup(parameters, "responseVariable")) ==> r == Failure(NotProvidedMessage(TemplateParameter, "responseVariable"))
    ensures IsNotEmpty(Lookup(parameters, "responseVariable")) && IsEmpty(Lookup(parameters, "overwriteBody")) ==>
              r == Failure(NotProvidedMessage(TemplateParameter, "overwriteBody"))
  {
    var rv :- GetMediatorParameter(parameters, "responseVariable", StringType, false);
    var ob :- GetMediatorParameter(parameters, "overwriteBody", BooleanType, false);
    Success((rv.value.s, ob.value.b))
  }

  // ---------------------------------------------------------------------------
  // getStorageConnectionString, getLeaseAction, getRequestConditions
  // ---------------------------------------------------------------------------

  /**
   * `getStorageConnectionString(accountName, accountKey, protocol)`: none of
   * the three is checked, and a null one is written as "null".
   */
  function StorageConnectionString(accountName: Option<string>, accountKey: Option<string>, protocol: Option<string>)
    : (r: string)
    ensures r == "DefaultEndpointsProtocol=" + JavaText(protocol) + ";AccountName=" + JavaText(accountName)
                 + ";AccountKey=" + JavaText(accountKey)
  {
    "DefaultEndpointsProtocol=" + JavaText(protocol) + ";" + "AccountName=" + JavaText(accountName) + ";"
    + "AccountKey=" + JavaText(accountKey)
  }

  /** The fixed separators of a storage connection string. */
  const PROTOCOL_FIELD: string := "DefaultEndpointsProtocol="
  const ACCOUNT_NAME_FIELD: string := ";AccountName="
  const ACCOUNT_KEY_FIELD: string := ";AccountKey="

  /** The parts of `a + b + c` are recovered by slicing at the lengths of `a` and `b`. */
  lemma SlicesOfConcat(a: string, b: string, c: string)
    ensures (a + b + c)[..|a|] == a
    ensures (a + b + c)[|a|..|a| + |b|] == b
    ensures (a + b + c)[|a| + |b|..] == c
  {
    var s := a + b + c;
    assert forall i :: 0 <= i < |a| ==> s[i] == a[i];
    assert forall i :: 0 <= i < |b| ==> s[|a| + i] == b[i];
  }

  /**
   * The fields of a connection string can be read back from it: each value
   * sits right after its separator and runs up to the next one.
   */
  lemma StorageConnectionStringFields(accountName: string, accountKey: string, protocol: string)
    ensures var s := StorageConnectionString(Some(accountName), Some(accountKey), Some(protocol));
      var i := |PROTOCOL_FIELD| + |protocol|;
      var j := i + |ACCOUNT_NAME_FIELD| + |accountName|;
      && s[..|PROTOCOL_FIELD|] == PROTOCOL_FIELD
      && s[|PROTOCOL_FIELD|..i] == protocol
      && s[i..i + |ACCOUNT_NAME_FIELD|] == ACCOUNT_NAME_FIELD
      && s[i + |ACCOUNT_NAME_FIELD|..j] == accountName
      && s[j..] == ACCOUNT_KEY_FIELD + accountKey
  {
    var s := StorageConnectionString(Some(accountName), Some(accountKey), Some(protocol));
    var p, n, k := PROTOCOL_FIELD, ACCOUNT_NAME_FIELD, ACCOUNT_KEY_FIELD + accountKey;
    assert s == p + protocol + n + accountName + k;
    SlicesOfConcat(p, protocol, n + accountName + k);
    SlicesOfConcat(p + protocol, n, accountName + k);
    SlicesOfConcat(p + protocol + n, accountName, k);
  }

  /** The SDK's `LeaseAction` constants. */
  datatype LeaseAction = Acquire | AutoRenew | AcquireRelease | Release

  /**
   * `getLeaseAction`: a `switch` on the text. Four texts name an action, every
   * other text yields null, and a null text makes the `switch` itself throw
   * NullPointerException.
   */
  function GetLeaseAction(text: Option<string>): (r: Result<Option<LeaseAction>, Thrown>)
    ensures text.None? <==> r.Failure?
    ensures r.Failure? ==> r.error == NullPointer
    ensures r.Success? ==> (r.value.Some? <==> text.value in {"Acquire", "Auto Renew", "Acquire Release", "Release"})
  {
    match text
    case None => Failure(NullPointer)
    case Some(t) =>
      if t == "Acquire" then Success(Some(Acquire))
      else if t == "Auto Renew" then Success(Some(AutoRenew))
      else if t == "Acquire Release" then Success(Some(AcquireRelease))
      else if t == "Release" then Success(Some(Release))
      else Success(None)
  }

  /** The four lease texts map to four different actions. */
  lemma LeaseActionsDistinct(a: string, b: string)
    requires a in {"Acquire", "Auto Renew", "Acquire Release", "Release"}
    requires b in {"Acquire", "Auto Renew", "Acquire Release", "Release"}
    requires a != b
    ensures GetLeaseAction(Some(a)).value != GetLeaseAction(Some(b)).value
  {
  }

  /**
   * `DataLakeRequestConditions`. The two date slots hold the text that
   * `OffsetDateTime.parse` accepted; the parsed date itself is not modelled.
   */
  datatype RequestConditions = RequestConditions(
    leaseId: Option<string>,
    ifMatch: Option<string>,
    ifNoneMatch: Option<string>,
    ifModifiedSince: Option<string>,
    ifUnmodifiedSince: Option<string>)

  /** A date slot is fine when it is null or its text is a date-time. */
  predicate DateSlotParses(text: Option<string>, isDateTime: string -> bool) {
    text.None? || isDateTime(text.value)
  }

  /**
   * `getRequestConditions(leaseId, ifMatch, ifNoneMatch, ifModifiedSince,
   * ifUnmodifiedSince)`: null dates stay null, others go through the date
   * parser, which throws DateTimeParseException on text it rejects.
   */
  function GetRequestConditions(leaseId: Option<string>, ifMatch: Option<string>, ifNoneMatch: Option<string>,
                                ifModifiedSince: Option<string>, ifUnmodifiedSince: Option<string>,
                                isDateTime: string -> bool)
    : (r: Result<RequestConditions, Thrown>)
    ensures r.Success? <==> DateSlotParses(ifModifiedSince, isDateTime) && DateSlotParses(ifUnmodifiedSince, isDateTime)
    ensures r.Failure? ==> r.error == DateTimeParse
    ensures r.Success? ==> (r.value.ifNoneMatch == ifNoneMatch && r.value.ifModifiedSince == ifModifiedSince
                            && r.value.leaseId == leaseId && r.value.ifMatch == ifMatch
                            && r.value.ifUnmodifiedSince == ifUnmodifiedSince)
  {
    if !DateSlotParses(ifModifiedSince, isDateTime) || !DateSlotParses(ifUnmodifiedSince, isDateTime) then
      Failure(DateTimeParse)
    else
      Success(RequestConditions(leaseId, ifMatch, ifNoneMatch, ifModifiedSince, ifUnmodifiedSince))
  }

  // ---------------------------------------------------------------------------
  // Values shared by the file operations
  // ---------------------------------------------------------------------------

  /** What an SDK call does: return a value or throw. */
  datatype Reply<+T> = Returned(value: T) | Threw(thrown: Thrown)

  /** A parameter that is present with non-empty text. */
  predicate Provided(parameters: map<string, string>, name: string) {
    name in parameters && parameters[name] != ""
  }

  /** An optional Integer parameter that is absent, or whose text is an `int`. */
  predicate IntAccepted(parameters: map<string, string>, name: string) {
    !Provided(parameters, name) || ParseInt(parameters[name]).Some?
  }

  /** Optional integers that are Java `int` values. */
  predicate IsOptionalInt(v: Option<int>) {
    v.Some? ==> IsInt(v.value)
  }

  /**
   * `getDataLakeFileClient(connectionName, fileSystemName, path)`, which the
   * operations call but `AbstractAzureMediator` does not declare: it either
   * yields the client of that file or throws. `None` is the client.
   */
  type FileClientOracle = (string, string, string) -> Option<Thrown>

  /** `PathHttpHeaders`: the five optional headers the operations set. */
  datatype PathHeaders = PathHeaders(
    cacheControl: Option<string>,
    contentType: Option<string>,
    contentDisposition: Option<string>,
    contentEncoding: Option<string>,
    contentLanguage: Option<string>)

  /** `ParallelTransferOptions`: block size and single-upload limit in bytes. */
  datatype TransferOptions = TransferOptions(
    blockSizeBytes: Option<int>,
    maxConcurrency: Option<int>,
    maxSingleUploadSizeBytes: Option<int>)

  /** The SDK request an operation sent, if any, and how its `try` block ended. */
  datatype Attempt<+R> = Attempt(issued: Option<R>, result: TryResult)

  /** `{STATUS: true, MESSAGE: message}`, built by two `put`s in that order. */
  function SuccessPayload(u: Undeclared, message: string): (j: Json)
    ensures j.JObject? && j.fields.Keys == {u.statusKey, u.messageKey}
    ensures j.fields[u.messageKey] == JString(message)
    ensures u.statusKey != u.messageKey ==> j.fields[u.statusKey] == JBool(true)
  {
    JObject(map[u.statusKey := JBool(true)][u.messageKey := JString(message)])
  }

  /**
   * `value.longValue() * 1024L * 1024L`: mebibytes to bytes in 64-bit
   * arithmetic. For any `int` no wrap-around occurs.
   */
  function MebibytesToBytes(mebibytes: int): (bytes: int)
    requires IsInt(mebibytes)
    ensures bytes == mebibytes * 1048576
    ensures IsLong(bytes)
  {
    WrapLong(WrapLong(mebibytes * 1024) * 1024)
  }

  /** An optional size in mebibytes, converted when present. */
  function OptionalBytes(mebibytes: Option<int>): (r: Option<int>)
    requires mebibytes.Some? ==> IsInt(mebibytes.value)
    ensures r.Some? <==> mebibytes.Some?
    ensures r.Some? ==> r.value == mebibytes.value * 1048576
  {
    if mebibytes.Some? then Some(MebibytesToBytes(mebibytes.value)) else None
  }

  /** The SDK's `FileRange(offset)` (open-ended, `count` null) or `FileRange(offset, count)`. */
  datatype FileRange = FileRange(offset: int, count: Option<int>)

  /**
   * The range both reads build: no offset means no range (a count alone is
   * dropped), an offset alone an open-ended range, both a bounded range.
   */
  function RangeOf(offset: Option<int>, count: Option<int>): (r: Option<FileRange>)
    ensures r.None? <==> offset.None?
    ensures r.Some? ==> r.value.offset == offset.value && r.value.count == count
  {
    if offset.None? then None
    else if count.None? then Some(FileRange(offset.value, None))
    else Some(FileRange(offset.value, Some(count.value)))
  }

  // ---------------------------------------------------------------------------
  // handleConnectorResponse and handleConnectorException
  // ---------------------------------------------------------------------------

  /** How an operation ends. */
  datatype Completion =
    | Completed                                   // returned normally
    | Rejected(message: string)                   // a parameter check threw SynapseException
    | Raised(error: Error, cause: Option<Thrown>)  // handleConnectorException threw SynapseException
    | Propagated(thrown: Thrown)                  // an exception left the operation uncaught

  /** A null payload stands for an empty JSON object. */
  function PayloadOrEmpty(payload: Option<Json>): (j: Json)
    ensures payload.None? ==> j == JObject(map[])
    ensures payload.Some? ==> j == payload.value
  {
    if payload.None? then JObject(map[]) else payload.value
  }

  /**
   * The response `handleConnectorResponse` stores: null headers and
   * attributes become empty maps, and the payload is attached only when the
   * body is not being overwritten.
   */
  function ResponseFor(overwriteBody: Option<bool>, payload: Option<Json>, headers: Option<map<string, Json>>,
                       attributes: Option<map<string, Json>>)
    : (r: ConnectorResponse)
    ensures r.payload.Some? <==> overwriteBody != Some(true)
    ensures r.payload.Some? ==> r.payload.value == PayloadOrEmpty(payload)
    ensures r.headers == (if headers.None? then map[] else headers.value)
    ensures r.attributes == (if attributes.None? then map[] else attributes.value)
  {
    var h := if headers.None? then map[] else headers.value;
    var a := if attributes.None? then map[] else attributes.value;
    if overwriteBody == Some(true) then ConnectorResponse(None, h, a)
    else ConnectorResponse(Some(PayloadOrEmpty(payload)), h, a)
  }

  /** The context after `handleConnectorResponse`. */
  function Responded(s: ContextState, responseVariable: string, overwriteBody: Option<bool>, payload: Option<Json>,
                     headers: Option<map<string, Json>>, attributes: Option<map<string, Json>>)
    : (s': ContextState)
    ensures s'.variables == s.variables[responseVariable := ResponseFor(overwriteBody, payload, headers, attributes)]
    ensures s'.properties == s.properties
    ensures overwriteBody == Some(true) ==>
              && s'.jsonBody == Some(PayloadOrEmpty(payload))
              && MESSAGE_TYPE in s'.axis2Properties && s'.axis2Properties[MESSAGE_TYPE] == JSON_CONTENT_TYPE
              && CONTENT_TYPE in s'.axis2Properties && s'.axis2Properties[CONTENT_TYPE] == JSON_CONTENT_TYPE
    ensures overwriteBody != Some(true) ==> s'.jsonBody == s.jsonBody && s'.axis2Properties == s.axis2Properties
  {
    var s1 := if overwriteBody == Some(true) then
      s.(jsonBody := Some(PayloadOrEmpty(payload)),
         axis2Properties := s.axis2Properties[MESSAGE_TYPE := JSON_CONTENT_TYPE][CONTENT_TYPE := JSON_CONTENT_TYPE])
    else s;
    s1.(variables := s.variables[responseVariable := ResponseFor(overwriteBody, payload, headers, attributes)])
  }

  /** `handleConnectorResponse`. */
  method HandleConnectorResponse(ctx: MessageContext, responseVariable: string, overwriteBody: Option<bool>,
                                 payload: Option<Json>, headers: Option<map<string, Json>>,
                                 attributes: Option<map<string, Json>>)
    modifies ctx
    ensures ctx.State() == Responded(old(ctx.State()), responseVariable, overwriteBody, payload, headers, attributes)
  {
    var response := ResponseFor(overwriteBody, payload, headers, attributes);
    if overwriteBody.Some? && overwriteBody.value {
      ctx.ReplaceJsonBody(PayloadOrEmpty(payload));
    }
    ctx.SetVariable(responseVariable, response);
  }

  /** The context after the two error properties are set. */
  function ErrorRaised(s: ContextState, e: Error, u: Undeclared): (s': ContextState)
    ensures s'.properties.Keys == s.properties.Keys + {ERROR_CODE, ERROR_MESSAGE}
    ensures s'.properties[ERROR_CODE] == Code(e, u) && s'.properties[ERROR_MESSAGE] == Message(e, u)
    ensures forall k :: k in s.properties && k != ERROR_CODE && k != ERROR_MESSAGE ==> s'.properties[k] == s.properties[k]
    ensures s'.variables == s.variables && s'.jsonBody == s.jsonBody && s'.axis2Properties == s.axis2Properties
  {
    s.(properties := s.properties[ERROR_CODE := Code(e, u)][ERROR_MESSAGE := Message(e, u)])
  }

  /** `handleConnectorException(code, mc, e)`: set ERROR_CODE and ERROR_MESSAGE, then always throw. */
  method HandleConnectorException(ctx: MessageContext, e: Error, u: Undeclared, cause: Thrown) returns (c: Completion)
    modifies ctx
    ensures ctx.State() == ErrorRaised(old(ctx.State()), e, u)
    ensures c == Raised(e, Some(cause))
  {
    ctx.SetProperty(ERROR_CODE, Code(e, u));
    ctx.SetProperty(ERROR_MESSAGE, Message(e, u));
    c := Raised(e, Some(cause));
  }

  /** `handleConnectorException(code, mc)`: the same, with no cause attached. */
  method HandleConnectorExceptionWithoutCause(ctx: MessageContext, e: Error, u: Undeclared) returns (c: Completion)
    modifies ctx
    ensures ctx.State() == ErrorRaised(old(ctx.State()), e, u)
    ensures c == Raised(e, None)
  {
    ctx.SetProperty(ERROR_CODE, Code(e, u));
    ctx.SetProperty(ERROR_MESSAGE, Message(e, u));
    c := Raised(e, None);
  }

  /** How the `try` block of an operation ended. */
  datatype TryResult =
    | Respond(payload: Json, attributes: Option<map<string, Json>>)  // reached handleConnectorResponse
    | NoResponse                                                     // finished without a response
    | Interrupted(thrown: Thrown)                                    // threw

  /**
   * The context and completion after an operation's `try` block and its
   * catch clauses: a response is stored, nothing happens, an error is
   * recorded and raised, or the exception escapes.
   */
  function Conclusion(s: ContextState, responseVariable: string, overwriteBody: bool, r: TryResult,
                      clauses: seq<CatchClause>, u: Undeclared)
    : (res: (ContextState, Completion))
    ensures r.Respond? ==> res.1 == Completed && responseVariable in res.0.variables
                           && res.0.variables[responseVariable] == ResponseFor(Some(overwriteBody), Some(r.payload), None, r.attributes)
                           && res.0.properties == s.properties
    ensures r.Respond? ==> res.0 == Responded(s, responseVariable, Some(overwriteBody), Some(r.payload), None, r.attributes)
    ensures !r.Respond? ==> res.0.variables == s.variables && res.0.jsonBody == s.jsonBody
    ensures r.NoResponse? ==> res == (s, Completed)
    ensures r.Interrupted? && FirstCatch(clauses, r.thrown).Some? ==>
              res == (ErrorRaised(s, FirstCatch(clauses, r.thrown).value, u),
                      Raised(FirstCatch(clauses, r.thrown).value, Some(r.thrown)))
    ensures r.Interrupted? && FirstCatch(clauses, r.thrown).None? ==> res == (s, Propagated(r.thrown))
  {
    match r
    case Respond(payload, attributes) =>
      (Responded(s, responseVariable, Some(overwriteBody), Some(payload), None, attributes), Completed)
    case NoResponse => (s, Completed)
    case Interrupted(t) =>
      match FirstCatch(clauses, t)
      case Some(e) => (ErrorRaised(s, e, u), Raised(e, Some(t)))
      case None => (s, Propagated(t))
  }

  /** Carries out `Conclusion` on the message context. */
  method Conclude(ctx: MessageContext, responseVariable: string, overwriteBody: bool, r: TryResult,
                  clauses: seq<CatchClause>, u: Undeclared)
    returns (c: Completion)
    modifies ctx
    ensures (ctx.State(), c) == Conclusion(old(ctx.State()), responseVariable, overwriteBody, r, clauses, u)
  {
    match r
    case Respond(payload, attributes) =>
      HandleConnectorResponse(ctx, responseVariable, Some(overwriteBody), Some(payload), None, attributes);
      c := Completed;
    case NoResponse =>
      c := Completed;
    case Interrupted(t) =>
      var e := FirstCatch(clauses, t);
      if e.Some? {
        c := HandleConnectorException(ctx, e.value, u, t);
      } else {
        c := Propagated(t);
      }
  }
}
