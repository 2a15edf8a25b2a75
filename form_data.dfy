/**
 * The shared, schema-less form-data bag of src/app/context/JourneyContext.tsx
 * and the JavaScript coercions the screens apply when they read it.
 */
module FormData {
  import opened Wrappers

  /** A JSON-like value (numbers are integers here). */
  datatype Value =
    | Null
    | Bool(b: bool)
    | Num(n: int)
    | Str(s: string)
    | List(items: seq<Value>)
    | Obj(fields: map<string, Value>)

  type Bag = map<string, Value>

  /** JavaScript truthiness of a value. */
  predicate Truthy(v: Value) {
    match v
    case Null => false
    case Bool(b) => b
    case Num(n) => n != 0
    case Str(s) => s != ""
    case List(_) => true
    case Obj(_) => true
  }

  /** `!!bag[key]`: a missing key reads as `undefined`, which is falsy. */
  predicate IsTruthy(bag: Bag, key: string) {
    key in bag && Truthy(bag[key])
  }

  /** `bag[key] !== false`: true unless the key holds exactly `false`. */
  predicate NotFalse(bag: Bag, key: string) {
    !(key in bag && bag[key] == Bool(false))
  }

  /** `bag[key] || fallback` for a field that holds a string. */
  function StrOr(bag: Bag, key: string, fallback: string): (r: string)
    ensures r == fallback || (key in bag && bag[key] == Str(r) && r != "")
    ensures IsTruthy(bag, key) && bag[key].Str? ==> r == bag[key].s
    ensures !IsTruthy(bag, key) ==> r == fallback
  {
    if key in bag && bag[key].Str? && bag[key].s != "" then bag[key].s else fallback
  }

  /** `bag[key] ?? null`: the value unless it is missing or `null`. */
  function Defined(bag: Bag, key: string): (r: Option<Value>)
    ensures r.Some? <==> key in bag && bag[key] != Null
    ensures r.Some? ==> r.value == bag[key]
  {
    if key in bag && bag[key] != Null then Some(bag[key]) else None
  }

  /** An optional value as it is written into the bag: `null` when absent. */
  function OrNull(o: Option<Value>): (r: Value)
    ensures r == Null <==> o.None? || o == Some(Null)
    ensures o.Some? ==> r == o.value
  {
    if o.Some? then o.value else Null
  }

  /** `{ ...prev, ...update }`: a shallow merge in which `update` wins. */
  function Merge(prev: Bag, update: Bag): (r: Bag)
    ensures r.Keys == prev.Keys + update.Keys
    ensures forall k :: k in update ==> r[k] == update[k]
    ensures forall k :: k in prev && k !in update ==> r[k] == prev[k]
  {
    prev + update
  }

  /** Writing the value a key already holds leaves the bag as it was. */
  lemma UpdateToSameValue(bag: Bag, key: string, v: Value)
    requires key in bag && bag[key] == v
    ensures bag[key := v] == bag
  {
  }

  /** The bag the provider starts with (JourneyContext.tsx lines 144-175). */
  function SeededDefaults(): Bag {
    map[
      "mobileNumber" := Str("9934090013"),
      "dob" := Str("1990-05-15"),
      "pan" := Str("ABCDE1234F"),
      "email" := Str("sachin.bansal72@gmail.com"),
      "fatherName" := Str("S. K. Bansal"),
      "motherName" := Str("Anita Bansal"),
      "maritalStatus" := Str("married"),
      "currentAddress" := Str("123, Green Park, New Delhi, 110016"),
      "incomeRange" := Str("10-15L"),
      "communicationAddress" := Str("123, Green Park, New Delhi, 110016"),
      "sameAsCurrentAddress" := Bool(true),
      "wantsNominee" := Bool(false),
      "nomineeName" := Str("Priya Bansal"),
      "nomineeRelation" := Str("spouse"),
      "nomineeDob" := Str(""),
      "nomineeAddress" := Str(""),
      "isPep" := Bool(false),
      "isIndianNational" := Bool(true),
      "isTaxResidentIndiaOnly" := Bool(true),
      "ekycUidaiConsent" := Bool(false),
      "vkycConsent" := Bool(false),
      "vkycPresentInIndia" := Bool(false),
      "autoConvertConsent" := Null,
      "autoConvertStatus" := Str("idle")
    ]
  }
}
