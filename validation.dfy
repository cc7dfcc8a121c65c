/** The Joi request schemas (the files of validationSchemas) and the validator that
    applies one to a parsed JSON body. Joi is run with its defaults: values are
    converted (a numeric string is a number), unknown keys are refused, and
    validation stops at the first failure, whose message is the one reported.
    The regular-expression tests and Joi's string-to-number and date parsing
    are library behaviour and enter as oracles. */
module Validation {
  import opened Shared

  /** A JSON value as `express.json()` parses it. */
  datatype Json = JNull | JBool(b: bool) | JNum(n: real) | JStr(s: string)
                | JArr(items: seq<Json>) | JObj(fields: seq<(string, Json)>)

  /** A request body: its keys in order, each with its value. */
  type Body = seq<(string, Json)>

  /** The patterns of the schemas: the website and email expressions, and the
      named pattern of `Joi.objectId()`. */
  datatype Pattern = UrlPattern | EmailPattern | MongoIdPattern

  /** Library behaviour the model does not re-implement: what the two regular
      expressions accept, Joi's conversion of a string to a number, and
      whether a string parses as a date. */
  datatype Oracles = Oracles(isUrl: string -> bool, isEmail: string -> bool,
                             toNumber: string -> Option<real>, isDate: string -> bool)

  /** The source text of each pattern, as Joi prints it in a message. */
  function PatternSource(p: Pattern): string {
    match p
    case UrlPattern =>
      "/https?:\\/\\/(www\\.)?[-a-zA-Z0-9@:%._\\+~#=]{1,256}\\.[a-zA-Z0-9()]{1,6}\\b([-a-zA-Z0-9()@:%_\\+.~#?&//=]*)/"
    case EmailPattern =>
      "/^(([^<>()[\\]\\\\.,;:\\s@\"]+(\\.[^<>()[\\]\\\\.,;:\\s@\"]+)*)|(\".+\"))@((\\[[0-9]{1,3}\\.[0-9]{1,3}\\.[0-9]{1,3}\\.[0-9]{1,3}\\])|(([a-zA-Z\\-0-9]+\\.)+[a-zA-Z]{2,}))$/"
    case MongoIdPattern => "/^[0-9a-fA-F]{24}$/"
  }

  /** Whether `s` matches pattern `p`; the ObjectId pattern is 24 hex digits. */
  predicate Test(p: Pattern, s: string, o: Oracles) {
    match p
    case UrlPattern => o.isUrl(s)
    case EmailPattern => o.isEmail(s)
    case MongoIdPattern => IsObjectId(s)
  }

  /** The rules chained on `Joi.string()`, checked in the order written. */
  datatype StringRule = MaxLength(n: nat) | MinLength(n: nat) | Matches(p: Pattern)

  /** The kinds of value a key may hold. `Str(only, rules)` is `Joi.string()`,
      restricted by `.valid(...only)` when `only` is not empty; `Num` is
      `Joi.number()` with its optional `.min` and `.max`; `StrList` is
      `Joi.array().items(Joi.string().required())`. */
  datatype Kind = Str(only: seq<string>, rules: seq<StringRule>) | Num(min: Option<int>, max: Option<int>)
                | Date | StrList

  datatype Key = Key(name: string, kind: Kind, required: bool)

  /** A `Joi.object({...})`: its keys in the order written. */
  type Schema = seq<Key>

  // ---------------------------------------------------------------------------
  // Looking into a body

  /** The value of `key` in the body, if present (the first occurrence). */
  function Lookup(b: Body, key: string): (r: Option<Json>)
    ensures r.None? <==> forall j :: 0 <= j < |b| ==> b[j].0 != key
    ensures r.Some? ==> exists j :: 0 <= j < |b| && b[j] == (key, r.value)
  {
    if b == [] then None
    else if b[0].0 == key then Some(b[0].1)
    else
      var r := Lookup(b[1..], key);
      assert r.Some? ==> exists j :: 0 <= j < |b[1..]| && b[1..][j] == (key, r.value);
      r
  }

  predicate Declared(s: Schema, key: string) {
    exists i :: 0 <= i < |s| && s[i].name == key
  }

  // ---------------------------------------------------------------------------
  // Messages

  /** Joi's label of a key: its path in double quotes. */
  function Label(path: string): string { "\"" + path + "\"" }

  function RequiredMessage(path: string): string { Label(path) + " is required" }

  function NotStringMessage(path: string): string { Label(path) + " must be a string" }

  function EmptyMessage(path: string): string { Label(path) + " is not allowed to be empty" }

  function OnlyMessage(path: string, only: seq<string>): string {
    Label(path) + " must be one of [" + Join(only, ", ") + "]"
  }

  function NotNumberMessage(path: string): string { Label(path) + " must be a number" }

  function UnknownMessage(path: string): string { Label(path) + " is not allowed" }

  function RuleMessage(path: string, rule: StringRule, value: string): string {
    match rule
    case MaxLength(n) => Label(path) + " length must be less than or equal to " + NatToString(n) + " characters long"
    case MinLength(n) => Label(path) + " length must be at least " + NatToString(n) + " characters long"
    case Matches(MongoIdPattern) => Label(path) + " with value " + Label(value) + " fails to match the valid mongo id pattern"
    case Matches(p) => Label(path) + " with value " + Label(value) + " fails to match the required pattern: " + PatternSource(p)
  }

  // ---------------------------------------------------------------------------
  // What each kind accepts, stated directly

  predicate Holds(rule: StringRule, s: string, o: Oracles) {
    match rule
    case MaxLength(n) => |s| <= n
    case MinLength(n) => |s| >= n
    case Matches(p) => Test(p, s, o)
  }

  /** The number a value converts to: a JSON number, or a string Joi converts. */
  function NumberOf(v: Json, o: Oracles): Option<real> {
    match v
    case JNum(x) => Some(x)
    case JStr(s) => o.toNumber(s)
    case _ => None
  }

  predicate InBounds(x: real, min: Option<int>, max: Option<int>) {
    (min.Some? ==> min.value as real <= x) && (max.Some? ==> x <= max.value as real)
  }

  /** A number `new Date(n)` turns into a valid date: ECMAScript's time
      values reach 8.64e15 milliseconds either side of the epoch. */
  predicate TimeValue(n: real) {
    -8640000000000000.0 <= n <= 8640000000000000.0
  }

  /** The values a key of kind `kind` accepts. An enumerated string is any of
      the listed values; a free string is non-empty and keeps every rule. */
  ghost predicate Conforms(kind: Kind, v: Json, o: Oracles) {
    match kind
    case Str(only, rules) =>
      if only != [] then v.JStr? && v.s in only
      else v.JStr? && v.s != "" && forall rule :: rule in rules ==> Holds(rule, v.s, o)
    case Num(min, max) => NumberOf(v, o).Some? && InBounds(NumberOf(v, o).value, min, max)
    case Date => (v.JNum? && TimeValue(v.n)) || (v.JStr? && o.isDate(v.s))
    case StrList => v.JArr? && v.items != [] && forall item :: item in v.items ==> item.JStr? && item.s != ""
  }

  /** A body a schema accepts: every key is present when required and conforms
      when present, and the body has no key the schema does not declare. */
  ghost predicate Accepts(s: Schema, b: Body, o: Oracles) {
    && (forall i :: 0 <= i < |s| ==> KeyAccepts(s[i], Lookup(b, s[i].name), o))
    && (forall j :: 0 <= j < |b| ==> Declared(s, b[j].0))
  }

  ghost predicate KeyAccepts(k: Key, v: Option<Json>, o: Oracles) {
    match v
    case None => !k.required
    case Some(x) => Conforms(k.kind, x, o)
  }

  // ---------------------------------------------------------------------------
  // The validator: the first failure, in Joi's order

  /** The first string rule `s` breaks. */
  function RuleError(path: string, rules: seq<StringRule>, s: string, o: Oracles): (r: Option<string>)
    ensures r.None? <==> forall rule :: rule in rules ==> Holds(rule, s, o)
  {
    if rules == [] then None
    else if !Holds(rules[0], s, o) then Some(RuleMessage(path, rules[0], s))
    else
      var r := RuleError(path, rules[1..], s, o);
      assert forall rule :: rule in rules ==> rule == rules[0] || rule in rules[1..];
      r
  }

  /** `Joi.string()` with its `valid` list and rules: an allowed value passes at
      once; otherwise the type, emptiness and then each rule is checked. */
  function StringError(path: string, only: seq<string>, rules: seq<StringRule>, v: Json, o: Oracles): (r: Option<string>)
    ensures r.None? <==> Conforms(Str(only, rules), v, o)
  {
    if only != [] then (if v.JStr? && v.s in only then None else Some(OnlyMessage(path, only)))
    else if !v.JStr? then Some(NotStringMessage(path))
    else if v.s == "" then Some(EmptyMessage(path))
    else RuleError(path, rules, v.s, o)
  }

  function NumberError(path: string, min: Option<int>, max: Option<int>, v: Json, o: Oracles): (r: Option<string>)
    ensures r.None? <==> Conforms(Num(min, max), v, o)
  {
    var x := NumberOf(v, o);
    if x.None? then Some(NotNumberMessage(path))
    else if min.Some? && x.value < min.value as real then
      Some(Label(path) + " must be greater than or equal to " + IntToString(min.value))
    else if max.Some? && x.value > max.value as real then
      Some(Label(path) + " must be less than or equal to " + IntToString(max.value))
    else None
  }

  /** The items of a string list from index `i` on: each must be a non-empty
      string, and is labelled by its index. */
  function ItemsError(path: string, items: seq<Json>, i: nat): (r: Option<string>)
    requires i <= |items|
    ensures r.None? <==> forall j :: i <= j < |items| ==> items[j].JStr? && items[j].s != ""
    decreases |items| - i
  {
    if i == |items| then None
    else
      var item := path + "[" + NatToString(i) + "]";
      if !items[i].JStr? then Some(NotStringMessage(item))
      else if items[i].s == "" then Some(EmptyMessage(item))
      else ItemsError(path, items, i + 1)
  }

  function ValueError(path: string, kind: Kind, v: Json, o: Oracles): (r: Option<string>)
    ensures r.None? <==> Conforms(kind, v, o)
  {
    match kind
    case Str(only, rules) => StringError(path, only, rules, v, o)
    case Num(min, max) => NumberError(path, min, max, v, o)
    case Date =>
      if (v.JNum? && TimeValue(v.n)) || (v.JStr? && o.isDate(v.s)) then None else Some(Label(path) + " must be a valid date")
    case StrList =>
      if !v.JArr? then Some(Label(path) + " must be an array")
      else if v.items == [] then Some(Label(path) + " does not contain 1 required value(s)")
      else
        var r := ItemsError(path, v.items, 0);
        assert r.None? <==> forall item :: item in v.items ==> item.JStr? && item.s != "";
        r
  }

  function KeyError(k: Key, v: Option<Json>, o: Oracles): (r: Option<string>)
    ensures r.None? <==> KeyAccepts(k, v, o)
  {
    match v
    case None => if k.required then Some(RequiredMessage(k.name)) else None
    case Some(x) => ValueError(k.name, k.kind, x, o)
  }

  /** The first declared key that fails, in schema order. */
  function KeysError(s: Schema, b: Body, o: Oracles): (r: Option<string>)
  {
    if s == [] then None
    else match KeyError(s[0], Lookup(b, s[0].name), o)
      case Some(e) => Some(e)
      case None => KeysError(s[1..], b, o)
  }

  /** The first key of the body that the schema does not declare. */
  function UnknownError(s: Schema, b: Body): (r: Option<string>)
    ensures r.Some? ==> exists j :: 0 <= j < |b| && !Declared(s, b[j].0) && r.value == UnknownMessage(b[j].0)
  {
    if b == [] then None
    else if !Declared(s, b[0].0) then Some(UnknownMessage(b[0].0))
    else
      var r := UnknownError(s, b[1..]);
      assert r.Some? ==> exists j :: 0 <= j < |b[1..]| && !Declared(s, b[1..][j].0) && r.value == UnknownMessage(b[1..][j].0);
      r
  }

  /** `schema.validate(body)`: the message of the first failure, if any. */
  function Validate(s: Schema, b: Body, o: Oracles): (r: Option<string>)
  {
    match KeysError(s, b, o)
    case Some(e) => Some(e)
    case None => UnknownError(s, b)
  }

  // ---------------------------------------------------------------------------
  // The validator against the direct statement

  lemma {:induction false} KeysErrorNone(s: Schema, b: Body, o: Oracles)
    ensures KeysError(s, b, o).None? <==> forall i :: 0 <= i < |s| ==> KeyAccepts(s[i], Lookup(b, s[i].name), o)
  {
    if s != [] {
      KeysErrorNone(s[1..], b, o);
      assert forall i :: 1 <= i < |s| ==> s[i] == s[1..][i - 1];
    }
  }

  lemma {:induction false} UnknownErrorNone(s: Schema, b: Body)
    ensures UnknownError(s, b).None? <==> forall j :: 0 <= j < |b| ==> Declared(s, b[j].0)
  {
    if b != [] {
      UnknownErrorNone(s, b[1..]);
      assert forall j :: 1 <= j < |b| ==> b[j] == b[1..][j - 1];
    }
  }

  /** The validator passes a body exactly when the schema accepts it. */
  lemma ValidateAccepts(s: Schema, b: Body, o: Oracles)
    ensures Validate(s, b, o).None? <==> Accepts(s, b, o)
  {
    KeysErrorNone(s, b, o);
    UnknownErrorNone(s, b);
  }

  lemma {:induction false} FirstMissingKey(s: Schema, b: Body, o: Oracles, i: nat)
    requires i < |s| && s[i].required && Lookup(b, s[i].name).None?
    requires forall j :: 0 <= j < i ==> KeyAccepts(s[j], Lookup(b, s[j].name), o)
    ensures KeysError(s, b, o) == Some(RequiredMessage(s[i].name))
  {
    if i > 0 {
      assert KeyAccepts(s[0], Lookup(b, s[0].name), o);
      FirstMissingKey(s[1..], b, o, i - 1);
    }
  }

  /** Missing keys are reported in schema order: when every key before a
      required key passes and that key is absent, its absence is the message. */
  lemma FirstMissingReported(s: Schema, b: Body, o: Oracles, i: nat)
    requires i < |s| && s[i].required && Lookup(b, s[i].name).None?
    requires forall j :: 0 <= j < i ==> KeyAccepts(s[j], Lookup(b, s[j].name), o)
    ensures Validate(s, b, o) == Some(RequiredMessage(s[i].name))
  {
    FirstMissingKey(s, b, o, i);
  }

  /** The `{}` body: the first required key of a schema is the one reported. */
  lemma EmptyBodyReportsFirstRequired(s: Schema, o: Oracles, i: nat)
    requires i < |s| && s[i].required
    requires forall j :: 0 <= j < i ==> !s[j].required
    ensures Validate(s, [], o) == Some(RequiredMessage(s[i].name))
  {
    FirstMissingReported(s, [], o, i);
  }

  // ---------------------------------------------------------------------------
  // Schemas that ask less

  /** Schema `t` relaxes schema `s`: each key of `t` is a key of `s` with the
      same kind and required only if it is there, or an optional key `s` does
      not have; and each key of `s` is declared in `t`. */
  ghost predicate Relaxes(t: Schema, s: Schema) {
    && (forall i :: 0 <= i < |t| ==>
          (exists j :: 0 <= j < |s| && s[j].name == t[i].name && s[j].kind == t[i].kind
                         && (t[i].required ==> s[j].required))
          || (!t[i].required && !Declared(s, t[i].name)))
    && (forall j :: 0 <= j < |s| ==> Declared(t, s[j].name))
  }

  lemma RelaxedKey(t: Schema, s: Schema, b: Body, o: Oracles, i: nat)
    requires Relaxes(t, s) && Accepts(s, b, o) && i < |t|
    ensures KeyAccepts(t[i], Lookup(b, t[i].name), o)
  {
    if j :| 0 <= j < |s| && s[j].name == t[i].name && s[j].kind == t[i].kind
                         && (t[i].required ==> s[j].required) {
      assert KeyAccepts(s[j], Lookup(b, s[j].name), o);
    } else if Lookup(b, t[i].name).Some? {
      assert false;
    }
  }

  lemma RelaxedDeclares(t: Schema, s: Schema, b: Body, j: nat)
    requires Relaxes(t, s) && j < |b| && Declared(s, b[j].0)
    ensures Declared(t, b[j].0)
  {
    var k :| 0 <= k < |s| && s[k].name == b[j].0;
    assert Declared(t, s[k].name);
  }

  /** Whatever a schema accepts, a relaxation of it accepts. */
  lemma RelaxedAccepts(t: Schema, s: Schema, b: Body, o: Oracles)
    requires Relaxes(t, s) && Validate(s, b, o).None?
    ensures Validate(t, b, o).None?
  {
    ValidateAccepts(s, b, o);
    ValidateAccepts(t, b, o);
    forall i | 0 <= i < |t| ensures KeyAccepts(t[i], Lookup(b, t[i].name), o) {
      RelaxedKey(t, s, b, o, i);
    }
    forall j | 0 <= j < |b| ensures Declared(t, b[j].0) {
      RelaxedDeclares(t, s, b, j);
    }
  }

  /** `s` with nothing required: a key-by-key relaxation. */
  ghost predicate Optional(t: Schema, s: Schema) {
    |t| == |s| && forall i :: 0 <= i < |s| ==> t[i] == s[i].(required := false)
  }

  lemma OptionalRelaxes(t: Schema, s: Schema)
    requires Optional(t, s)
    ensures Relaxes(t, s)
  {
    forall i | 0 <= i < |t|
      ensures exists j :: 0 <= j < |s| && s[j].name == t[i].name && s[j].kind == t[i].kind
                          && (t[i].required ==> s[j].required)
    {
      assert s[i].name == t[i].name && s[i].kind == t[i].kind;
    }
    forall j | 0 <= j < |s| ensures Declared(t, s[j].name) {
      assert t[j].name == s[j].name;
    }
  }

  /** A schema with no required key accepts the empty body. */
  lemma NothingRequired(s: Schema, o: Oracles)
    requires forall i :: 0 <= i < |s| ==> !s[i].required
    ensures Validate(s, [], o).None?
  {
    ValidateAccepts(s, [], o);
  }

  // ---------------------------------------------------------------------------
  // The schemas

  function ObjectIdKind(): Kind { Str([], [Matches(MongoIdPattern)]) }

  function AnyString(): Kind { Str([], []) }

  function DiveCenterSchema(): Schema {
    [ Key("name", Str([], [MaxLength(50)]), true),
      Key("description", Str([], [MaxLength(500)]), true),
      Key("website", Str([], [Matches(UrlPattern)]), false),
      Key("phone", Str([], [MaxLength(20)]), false),
      Key("email", Str([], [Matches(EmailPattern)]), false),
      Key("address", AnyString(), true),
      Key("specialties", StrList, true),
      Key("averageRating", Num(Some(1), Some(10)), false),
      Key("averageCost", Num(None, None), false),
      Key("photo", AnyString(), false),
      Key("createdAt", Date, false),
      Key("user", ObjectIdKind(), false) ]
  }

  function DiveCenterOptionalSchema(): Schema {
    [ Key("name", Str([], [MaxLength(50)]), false),
      Key("description", Str([], [MaxLength(500)]), false),
      Key("website", Str([], [Matches(UrlPattern)]), false),
      Key("phone", Str([], [MaxLength(20)]), false),
      Key("email", Str([], [Matches(EmailPattern)]), false),
      Key("address", AnyString(), false),
      Key("specialties", StrList, false),
      Key("averageRating", Num(Some(1), Some(10)), false),
      Key("averageCost", Num(None, None), false),
      Key("photo", AnyString(), false),
      Key("createdAt", Date, false),
      Key("user", ObjectIdKind(), false) ]
  }

  function SkillLevels(): seq<string> { ["beginner", "intermediate", "advanced"] }

  function CourseSchema(): Schema {
    [ Key("title", AnyString(), true),
      Key("description", AnyString(), true),
      Key("days", Num(None, None), true),
      Key("price", Num(None, None), true),
      Key("minimumSkill", Str(SkillLevels(), []), true),
      Key("createdAt", Date, false),
      Key("diveCenter", ObjectIdKind(), false),
      Key("user", ObjectIdKind(), false) ]
  }

  function CourseOptionalSchema(): Schema {
    [ Key("title", AnyString(), false),
      Key("description", AnyString(), false),
      Key("days", Num(None, None), false),
      Key("price", Num(None, None), false),
      Key("minimumSkill", Str(SkillLevels(), []), false),
      Key("createdAt", Date, false),
      Key("diveCenter", ObjectIdKind(), false),
      Key("user", ObjectIdKind(), false) ]
  }

  function ReviewSchema(): Schema {
    [ Key("title", Str([], [MaxLength(100)]), true),
      Key("text", AnyString(), true),
      Key("rating", Num(Some(1), Some(10)), true),
      Key("createdAt", Date, false),
      Key("diveCenter", ObjectIdKind(), false),
      Key("user", ObjectIdKind(), false) ]
  }

  function ReviewOptionalSchema(): Schema {
    [ Key("title", Str([], [MaxLength(100)]), false),
      Key("text", AnyString(), false),
      Key("rating", Num(Some(1), Some(10)), false),
      Key("createdAt", Date, false),
      Key("diveCenter", ObjectIdKind(), false),
      Key("user", ObjectIdKind(), false) ]
  }

  /** The roles a user may be created with: `admin` is not among them. */
  function RequestableRoles(): seq<string> { ["user", "publisher"] }

  function UserSchema(): Schema {
    [ Key("name", AnyString(), true),
      Key("email", Str([], [Matches(EmailPattern)]), true),
      Key("role", Str(RequestableRoles(), []), false),
      Key("password", Str([], [MinLength(6)]), true),
      Key("resetPasswordToken", AnyString(), false),
      Key("resetPasswordExpire", AnyString(), false),
      Key("createdAt", Date, false) ]
  }

  function UserOptionalSchema(): Schema {
    [ Key("name", AnyString(), false),
      Key("email", Str([], [Matches(EmailPattern)]), false),
      Key("role", Str(RequestableRoles(), []), false),
      Key("password", Str([], [MinLength(6)]), false),
      Key("currentPassword", Str([], [MinLength(6)]), false),
      Key("newPassword", Str([], [MinLength(6)]), false),
      Key("resetPasswordToken", AnyString(), false),
      Key("resetPasswordExpire", AnyString(), false),
      Key("createdAt", Date, false) ]
  }

  // ---------------------------------------------------------------------------
  // What each schema guarantees

  /** A body that passes holds, for each declared key, a value that conforms. */
  lemma Passed(s: Schema, b: Body, o: Oracles, i: nat)
    requires Validate(s, b, o).None? && i < |s|
    ensures KeyAccepts(s[i], Lookup(b, s[i].name), o)
  {
    ValidateAccepts(s, b, o);
  }

  /** A string value of at most `n` characters, when present. */
  predicate TextUpTo(v: Option<Json>, n: nat) {
    v.Some? ==> v.value.JStr? && 0 < |v.value.s| <= n
  }

  /** A string value of at least `n` characters, when present. */
  predicate TextAtLeast(v: Option<Json>, n: nat) {
    v.Some? ==> v.value.JStr? && |v.value.s| >= n && v.value.s != ""
  }

  predicate Text(v: Option<Json>) {
    v.Some? ==> v.value.JStr? && v.value.s != ""
  }

  predicate NumberIn(v: Option<Json>, o: Oracles, min: Option<int>, max: Option<int>) {
    v.Some? ==> NumberOf(v.value, o).Some? && InBounds(NumberOf(v.value, o).value, min, max)
  }

  predicate OneOf(v: Option<Json>, only: seq<string>) {
    v.Some? ==> v.value.JStr? && v.value.s in only
  }

  predicate StringList(v: Option<Json>) {
    v.Some? ==> v.value.JArr? && v.value.items != []
                && forall item :: item in v.value.items ==> item.JStr? && item.s != ""
  }

  lemma BoundedText(s: Schema, b: Body, o: Oracles, i: nat, name: string, n: nat)
    requires Validate(s, b, o).None? && i < |s| && s[i].name == name && s[i].kind == Str([], [MaxLength(n)])
    ensures TextUpTo(Lookup(b, name), n)
  {
    Passed(s, b, o, i);
    assert MaxLength(n) in s[i].kind.rules;
  }

  lemma LongText(s: Schema, b: Body, o: Oracles, i: nat, name: string, n: nat)
    requires Validate(s, b, o).None? && i < |s| && s[i].name == name && s[i].kind == Str([], [MinLength(n)])
    ensures TextAtLeast(Lookup(b, name), n)
  {
    Passed(s, b, o, i);
    assert MinLength(n) in s[i].kind.rules;
  }

  lemma PlainText(s: Schema, b: Body, o: Oracles, i: nat, name: string)
    requires Validate(s, b, o).None? && i < |s| && s[i].name == name && s[i].kind == Str([], [])
    ensures Text(Lookup(b, name))
  {
    Passed(s, b, o, i);
  }

  lemma Enumerated(s: Schema, b: Body, o: Oracles, i: nat, name: string, only: seq<string>)
    requires Validate(s, b, o).None? && i < |s| && s[i].name == name && s[i].kind == Str(only, []) && only != []
    ensures OneOf(Lookup(b, name), only)
  {
    Passed(s, b, o, i);
  }

  lemma Numeric(s: Schema, b: Body, o: Oracles, i: nat, name: string, min: Option<int>, max: Option<int>)
    requires Validate(s, b, o).None? && i < |s| && s[i].name == name && s[i].kind == Num(min, max)
    ensures NumberIn(Lookup(b, name), o, min, max)
  {
    Passed(s, b, o, i);
  }

  lemma Listed(s: Schema, b: Body, o: Oracles, i: nat, name: string)
    requires Validate(s, b, o).None? && i < |s| && s[i].name == name && s[i].kind == StrList
    ensures StringList(Lookup(b, name))
  {
    Passed(s, b, o, i);
  }

  lemma Present(s: Schema, b: Body, o: Oracles, i: nat, name: string)
    requires Validate(s, b, o).None? && i < |s| && s[i].name == name && s[i].required
    ensures Lookup(b, name).Some?
  {
    Passed(s, b, o, i);
  }

  /** The dive-center update schema: each field, when given, is well formed. */
  lemma DiveCenterUpdateFields(b: Body, o: Oracles)
    requires Validate(DiveCenterOptionalSchema(), b, o).None?
    ensures TextUpTo(Lookup(b, "name"), 50) && TextUpTo(Lookup(b, "description"), 500)
    ensures TextUpTo(Lookup(b, "phone"), 20) && Text(Lookup(b, "address"))
    ensures StringList(Lookup(b, "specialties"))
    ensures NumberIn(Lookup(b, "averageRating"), o, Some(1), Some(10))
  {
    var s := DiveCenterOptionalSchema();
    BoundedText(s, b, o, 0, "name", 50);
    BoundedText(s, b, o, 1, "description", 500);
    BoundedText(s, b, o, 3, "phone", 20);
    PlainText(s, b, o, 5, "address");
    Listed(s, b, o, 6, "specialties");
    Numeric(s, b, o, 7, "averageRating", Some(1), Some(10));
  }

  /** The dive-center update schema is the creation schema with nothing
      required, so a body accepted for creation is accepted for update. */
  lemma DiveCenterCreateAcceptedForUpdate(b: Body, o: Oracles)
    requires Validate(DiveCenterSchema(), b, o).None?
    ensures Validate(DiveCenterOptionalSchema(), b, o).None?
  {
    OptionalRelaxes(DiveCenterOptionalSchema(), DiveCenterSchema());
    RelaxedAccepts(DiveCenterOptionalSchema(), DiveCenterSchema(), b, o);
  }

  /** Creation needs a name, a description, an address and specialties. */
  lemma DiveCenterCreateFields(b: Body, o: Oracles)
    requires Validate(DiveCenterSchema(), b, o).None?
    ensures Lookup(b, "name").Some? && Lookup(b, "description").Some?
    ensures Lookup(b, "address").Some? && Lookup(b, "specialties").Some?
  {
    var s := DiveCenterSchema();
    Present(s, b, o, 0, "name");
    Present(s, b, o, 1, "description");
    Present(s, b, o, 5, "address");
    Present(s, b, o, 6, "specialties");
  }

  /** `Joi.date()` takes a number as milliseconds since the epoch, and one
      beyond the time range is not a valid date. */
  lemma DateOutOfRange(o: Oracles)
    ensures ValueError("createdAt", Date, JNum(8640000000000001.0), o) == Some("\"createdAt\" must be a valid date")
    ensures ValueError("createdAt", Date, JNum(-8640000000000000.0), o).None?
  {
    assert !TimeValue(8640000000000001.0);
    assert Label("createdAt") + " must be a valid date" == "\"createdAt\" must be a valid date";
  }

  /** An empty dive-center body is refused for its name first. */
  lemma DiveCenterEmptyBody(o: Oracles)
    ensures Validate(DiveCenterSchema(), [], o) == Some(RequiredMessage("name"))
  {
    EmptyBodyReportsFirstRequired(DiveCenterSchema(), o, 0);
  }

  /** The course update schema: each field, when given, is well formed. */
  lemma CourseUpdateFields(b: Body, o: Oracles)
    requires Validate(CourseOptionalSchema(), b, o).None?
    ensures Text(Lookup(b, "title")) && Text(Lookup(b, "description"))
    ensures NumberIn(Lookup(b, "days"), o, None, None) && NumberIn(Lookup(b, "price"), o, None, None)
    ensures OneOf(Lookup(b, "minimumSkill"), SkillLevels())
  {
    var s := CourseOptionalSchema();
    PlainText(s, b, o, 0, "title");
    PlainText(s, b, o, 1, "description");
    Numeric(s, b, o, 2, "days", None, None);
    Numeric(s, b, o, 3, "price", None, None);
    Enumerated(s, b, o, 4, "minimumSkill", SkillLevels());
  }

  lemma CourseCreateAcceptedForUpdate(b: Body, o: Oracles)
    requires Validate(CourseSchema(), b, o).None?
    ensures Validate(CourseOptionalSchema(), b, o).None?
  {
    OptionalRelaxes(CourseOptionalSchema(), CourseSchema());
    RelaxedAccepts(CourseOptionalSchema(), CourseSchema(), b, o);
  }

  /** Creation needs a title, a description, days, a price and a skill level. */
  lemma CourseCreateFields(b: Body, o: Oracles)
    requires Validate(CourseSchema(), b, o).None?
    ensures Lookup(b, "title").Some? && Lookup(b, "description").Some?
    ensures Lookup(b, "days").Some? && Lookup(b, "price").Some? && Lookup(b, "minimumSkill").Some?
  {
    var s := CourseSchema();
    Present(s, b, o, 0, "title");
    Present(s, b, o, 1, "description");
    Present(s, b, o, 2, "days");
    Present(s, b, o, 3, "price");
    Present(s, b, o, 4, "minimumSkill");
  }

  /** Missing course fields are reported in schema order: title, then
      description. */
  lemma CourseMissingOrder(o: Oracles, title: string)
    requires title != ""
    ensures Validate(CourseSchema(), [], o) == Some(RequiredMessage("title"))
    ensures Validate(CourseSchema(), [("title", JStr(title))], o) == Some(RequiredMessage("description"))
  {
    FirstMissingReported(CourseSchema(), [], o, 0);
    FirstMissingReported(CourseSchema(), [("title", JStr(title))], o, 1);
  }

  /** With a title and a description, the missing days are reported. */
  lemma CourseMissingDays(o: Oracles, title: string, description: string)
    requires title != "" && description != ""
    ensures Validate(CourseSchema(), [("title", JStr(title)), ("description", JStr(description))], o)
            == Some(RequiredMessage("days"))
  {
    FirstMissingReported(CourseSchema(), [("title", JStr(title)), ("description", JStr(description))], o, 2);
  }

  /** The review update schema: each field, when given, is well formed. */
  lemma ReviewUpdateFields(b: Body, o: Oracles)
    requires Validate(ReviewOptionalSchema(), b, o).None?
    ensures TextUpTo(Lookup(b, "title"), 100) && Text(Lookup(b, "text"))
    ensures NumberIn(Lookup(b, "rating"), o, Some(1), Some(10))
  {
    var s := ReviewOptionalSchema();
    BoundedText(s, b, o, 0, "title", 100);
    PlainText(s, b, o, 1, "text");
    Numeric(s, b, o, 2, "rating", Some(1), Some(10));
  }

  lemma ReviewCreateAcceptedForUpdate(b: Body, o: Oracles)
    requires Validate(ReviewSchema(), b, o).None?
    ensures Validate(ReviewOptionalSchema(), b, o).None?
  {
    OptionalRelaxes(ReviewOptionalSchema(), ReviewSchema());
    RelaxedAccepts(ReviewOptionalSchema(), ReviewSchema(), b, o);
  }

  /** Creation needs a title, a text and a rating. */
  lemma ReviewCreateFields(b: Body, o: Oracles)
    requires Validate(ReviewSchema(), b, o).None?
    ensures Lookup(b, "title").Some? && Lookup(b, "text").Some? && Lookup(b, "rating").Some?
  {
    var s := ReviewSchema();
    Present(s, b, o, 0, "title");
    Present(s, b, o, 1, "text");
    Present(s, b, o, 2, "rating");
  }

  /** Missing review fields are reported in schema order: title, then text. */
  lemma ReviewMissingOrder(o: Oracles, title: string)
    requires title != "" && |title| <= 100
    ensures Validate(ReviewSchema(), [], o) == Some(RequiredMessage("title"))
    ensures Validate(ReviewSchema(), [("title", JStr(title))], o) == Some(RequiredMessage("text"))
  {
    var s := ReviewSchema();
    FirstMissingReported(s, [], o, 0);
    assert forall rule :: rule in s[0].kind.rules ==> Holds(rule, title, o);
    FirstMissingReported(s, [("title", JStr(title))], o, 1);
  }

  /** With a title and a text, the missing rating is reported. */
  lemma ReviewMissingRating(o: Oracles, title: string, text: string)
    requires title != "" && |title| <= 100 && text != ""
    ensures Validate(ReviewSchema(), [("title", JStr(title)), ("text", JStr(text))], o) == Some(RequiredMessage("rating"))
  {
    var s := ReviewSchema();
    assert forall rule :: rule in s[0].kind.rules ==> Holds(rule, title, o);
    FirstMissingReported(s, [("title", JStr(title)), ("text", JStr(text))], o, 2);
  }

  /** The user update schema keeps the role whitelist and gives every password
      field at least 6 characters. */
  lemma UserUpdateFields(b: Body, o: Oracles)
    requires Validate(UserOptionalSchema(), b, o).None?
    ensures OneOf(Lookup(b, "role"), RequestableRoles())
    ensures TextAtLeast(Lookup(b, "password"), 6)
    ensures TextAtLeast(Lookup(b, "currentPassword"), 6) && TextAtLeast(Lookup(b, "newPassword"), 6)
  {
    var s := UserOptionalSchema();
    Enumerated(s, b, o, 2, "role", RequestableRoles());
    LongText(s, b, o, 3, "password", 6);
    LongText(s, b, o, 4, "currentPassword", 6);
    LongText(s, b, o, 5, "newPassword", 6);
  }

  /** The user update schema requires nothing. */
  lemma UserUpdateAcceptsEmpty(o: Oracles)
    ensures Validate(UserOptionalSchema(), [], o).None?
  {
    NothingRequired(UserOptionalSchema(), o);
  }

  /** Creation needs a name, an email and a password of at least 6
      characters, and keeps the role whitelist. */
  lemma UserCreateFields(b: Body, o: Oracles)
    requires Validate(UserSchema(), b, o).None?
    ensures Lookup(b, "name").Some? && Lookup(b, "email").Some? && Lookup(b, "password").Some?
    ensures TextAtLeast(Lookup(b, "password"), 6)
    ensures OneOf(Lookup(b, "role"), RequestableRoles())
  {
    var s := UserSchema();
    Present(s, b, o, 0, "name");
    Present(s, b, o, 1, "email");
    Present(s, b, o, 3, "password");
    LongText(s, b, o, 3, "password", 6);
    Enumerated(s, b, o, 2, "role", RequestableRoles());
  }

  /** Missing user fields are reported in schema order: name, then email. */
  lemma UserMissingOrder(o: Oracles, name: string)
    requires name != ""
    ensures Validate(UserSchema(), [], o) == Some(RequiredMessage("name"))
    ensures Validate(UserSchema(), [("name", JStr(name))], o) == Some(RequiredMessage("email"))
  {
    FirstMissingReported(UserSchema(), [], o, 0);
    FirstMissingReported(UserSchema(), [("name", JStr(name))], o, 1);
  }

  /** With a name and a valid email, the missing password is reported. */
  lemma UserMissingPassword(o: Oracles, name: string, email: string)
    requires name != "" && email != "" && o.isEmail(email)
    ensures Validate(UserSchema(), [("name", JStr(name)), ("email", JStr(email))], o) == Some(RequiredMessage("password"))
  {
    var s := UserSchema();
    assert forall rule :: rule in s[1].kind.rules ==> Holds(rule, email, o);
    FirstMissingReported(s, [("name", JStr(name)), ("email", JStr(email))], o, 3);
  }

  /** Asking for the admin role fails validation, on creation and on update. */
  lemma AdminRoleRefused(b: Body, o: Oracles)
    requires Lookup(b, "role") == Some(JStr("admin"))
    ensures Validate(UserSchema(), b, o).Some? && Validate(UserOptionalSchema(), b, o).Some?
  {
    if Validate(UserSchema(), b, o).None? {
      Enumerated(UserSchema(), b, o, 2, "role", RequestableRoles());
    }
    if Validate(UserOptionalSchema(), b, o).None? {
      Enumerated(UserOptionalSchema(), b, o, 2, "role", RequestableRoles());
    }
  }
}
