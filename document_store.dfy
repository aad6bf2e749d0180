/**
 * The document store as the core sees it: a document is a map from field names to
 * typed values, read back through typed getters that throw on a value of the wrong type.
 * Also the exceptions that the core's operations pass on.
 */
module DocumentStore {
  import opened Wrappers
  import opened Text

  /** The store's native point in time; formatting it is done by a formatter given as input. */
  datatype Timestamp = Timestamp(seconds: int, nanoseconds: int)

  /** A field value. Numbers (longs and doubles) are `real`; arrays, maps, references and the like are `OtherValue`. */
  datatype Value =
    | StringValue(text: string)
    | NumberValue(number: real)
    | BoolValue(flag: bool)
    | TimestampValue(time: Timestamp)
    | NullValue
    | OtherValue

  type Fields = map<string, Value>

  /** A document of a snapshot: its id and its fields. */
  datatype Document = Document(id: string, fields: Fields)

  /** The exceptions the core sees. */
  datatype Exception =
    | StoreError(message: Option<string>)   // a failure reported by the store, auth or blob client
    | NotAString(field: string)             // `getString` on a value that is not a string
    | NotANumber(field: string)             // `getDouble` on a value that is not a number
    | NotABoolean(field: string)            // `getBoolean` on a value that is not a boolean
    | DocumentNotFound(documentId: string)  // `update` of a document that does not exist
    | ObjectNotFound(path: string)          // blob `delete` of a path that holds no object
    | Raised(text: string)                  // `Exception(text)` thrown by the core itself
  {
    /** `e.message`. */
    function Message(): Option<string> {
      match this
      case StoreError(m) => m
      case NotAString(f) => Some("Field '" + f + "' is not a java.lang.String")
      case NotANumber(f) => Some("Field '" + f + "' is not a java.lang.Number")
      case NotABoolean(f) => Some("Field '" + f + "' is not a java.lang.Boolean")
      case DocumentNotFound(id) => Some("NOT_FOUND: No document to update: " + id) // the store names the full path
      case ObjectNotFound(_) => Some("Object does not exist at location.")
      case Raised(t) => Some(t)
    }
  }

  /** `e.message ?: default`. */
  function MessageOr(e: Exception, default: string): string {
    e.Message().GetOr(default)
  }

  /** `"${e.message}"`: a null message renders as "null". */
  function MessageText(e: Exception): string {
    e.Message().GetOr("null")
  }

  /** `e.message?.contains(sub) == true`: a null message contains nothing. */
  predicate MessageContains(e: Exception, sub: string) {
    e.Message().Some? && Contains(e.Message().value, sub)
  }

  /** The fields a point read returns: a document that does not exist has none. */
  function FieldsOf(documents: map<string, Fields>, id: string): (f: Fields)
    ensures id !in documents ==> f == map[]
    ensures id in documents ==> f == documents[id]
  {
    if id in documents then documents[id] else map[]
  }

  /** `getString(key)`: null when absent or null, the text when a string, throws otherwise. */
  function GetString(fields: Fields, key: string): (r: Result<Option<string>, Exception>)
    ensures r.Failure? <==> key in fields && !fields[key].StringValue? && !fields[key].NullValue?
    ensures r.Success? && r.value.Some? <==> key in fields && fields[key].StringValue?
    ensures r == Success(Some(fields[key].text)) <== key in fields && fields[key].StringValue?
  {
    if key !in fields then Success(None)
    else match fields[key]
      case StringValue(s) => Success(Some(s))
      case NullValue => Success(None)
      case _ => Failure(NotAString(key))
  }

  /** `getDouble(key)`: null when absent or null, the number when numeric, throws otherwise. */
  function GetDouble(fields: Fields, key: string): (r: Result<Option<real>, Exception>)
    ensures r.Failure? <==> key in fields && !fields[key].NumberValue? && !fields[key].NullValue?
    ensures r.Success? && r.value.Some? <==> key in fields && fields[key].NumberValue?
  {
    if key !in fields then Success(None)
    else match fields[key]
      case NumberValue(n) => Success(Some(n))
      case NullValue => Success(None)
      case _ => Failure(NotANumber(key))
  }

  /** `getBoolean(key)`: null when absent or null, the flag when a boolean, throws otherwise. */
  function GetBoolean(fields: Fields, key: string): (r: Result<Option<bool>, Exception>)
    ensures r.Failure? <==> key in fields && !fields[key].BoolValue? && !fields[key].NullValue?
    ensures r == Success(Some(true)) <==> key in fields && fields[key] == BoolValue(true)
  {
    if key !in fields then Success(None)
    else match fields[key]
      case BoolValue(b) => Success(Some(b))
      case NullValue => Success(None)
      case _ => Failure(NotABoolean(key))
  }

  /** `whereEqualTo(field, value)`: the documents whose field holds exactly that string, in snapshot order. */
  function WhereEqualTo(docs: seq<Document>, field: string, value: string): (r: seq<Document>)
    ensures forall d :: d in r ==> d in docs && field in d.fields && d.fields[field] == StringValue(value)
    ensures forall d :: d in docs && field in d.fields && d.fields[field] == StringValue(value) ==> d in r
  {
    if docs == [] then []
    else
      var d := docs[0];
      var rest := WhereEqualTo(docs[1..], field, value);
      if field in d.fields && d.fields[field] == StringValue(value) then [d] + rest else rest
  }

  /**
   * The filter keeps snapshot order: filtering a concatenation filters each part, and the parts'
   * results stay in the same order.
   */
  lemma {:induction false} WhereEqualToAppend(a: seq<Document>, b: seq<Document>, field: string, value: string)
    ensures WhereEqualTo(a + b, field, value) == WhereEqualTo(a, field, value) + WhereEqualTo(b, field, value)
  {
    if a == [] {
      assert a + b == b;
    } else {
      assert (a + b)[1..] == a[1..] + b;
      WhereEqualToAppend(a[1..], b, field, value);
    }
  }

  /** Each matching document is kept as often as it occurs in the snapshot, and any other not at all. */
  lemma {:induction false} WhereEqualToCount(docs: seq<Document>, field: string, value: string, d: Document)
    ensures multiset(WhereEqualTo(docs, field, value))[d] ==
      if field in d.fields && d.fields[field] == StringValue(value) then multiset(docs)[d] else 0
  {
    if docs != [] {
      assert docs == [docs[0]] + docs[1..];
      assert multiset(docs) == multiset([docs[0]]) + multiset(docs[1..]);
      WhereEqualToCount(docs[1..], field, value, d);
    }
  }
}
