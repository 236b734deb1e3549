/**
 * The schema of the material inbound form. `materialsData` must be a
 * non-empty string holding JSON; the parsed value must be a non-empty array
 * of items, each an object with a non-empty `drawingNumber`, a non-empty
 * `itemName` and a `quantity` that coerces to an integer of at least 1.
 * Every failure is an issue with a path: `[]` for the whole input, `[i]`
 * for an item that is not an object, `[i, field]` for a field of item `i`.
 */
module MaterialSchema {
  import opened Wrappers
  import opened Js
  import opened Messages

  /** A value `JSON.parse` can produce. */
  datatype Json =
    | JNull
    | JBool(b: bool)
    | JNumber(n: real)
    | JString(s: string)
    | JArray(items: seq<Json>)
    | JObject(fields: map<string, Json>)

  /** The fields of an item, which are also the keys of a row error. */
  datatype ItemField = DrawingNumber | ItemName | Quantity {
    function Key(): string {
      match this
      case DrawingNumber => "drawingNumber"
      case ItemName => "itemName"
      case Quantity => "quantity"
    }
  }

  datatype PathSegment = Index(i: nat) | Field(f: ItemField)

  /** One validation issue: where it is and what it says. */
  datatype Issue = Issue(path: seq<PathSegment>, message: Message)

  /** What the schema library calls a parsed value's type in its default messages. */
  function TypeOf(j: Json): TypeName {
    match j
    case JNull => NullType
    case JBool(_) => BooleanType
    case JNumber(_) => NumberType
    case JString(_) => StringType
    case JArray(_) => ArrayType
    case JObject(_) => ObjectType
  }

  /** `Number(j)` of a parsed JSON value. */
  function JsonToNumber(j: Json): Number {
    match j
    case JNull => Finite(0.0)
    case JBool(b) => Finite(if b then 1.0 else 0.0)
    case JNumber(n) => Finite(n)
    case JString(s) => StringToNumber(s)
    case JObject(_) => NaN
    case JArray(xs) =>
      // an array converts through `xs.join(',')`: two or more elements leave a comma
      if |xs| == 0 then Finite(0.0)
      else if |xs| == 1 then JoinedElementToNumber(xs[0])
      else NaN
  }

  /** `Number(String(x))` of the only element `x` of an array, as `join` spells it. */
  function JoinedElementToNumber(x: Json): Number {
    match x
    case JNull => Finite(0.0)
    case JBool(_) => NaN
    case JNumber(n) => Finite(n)
    case JString(s) => StringToNumber(s)
    case JObject(_) => NaN
    case JArray(ys) =>
      // a nested array joins to the same text as the array itself
      if |ys| == 0 then Finite(0.0)
      else if |ys| == 1 then JoinedElementToNumber(ys[0])
      else NaN
  }

  /** `z.string().min(1, minMessage)` on a possibly missing field. */
  function StringFieldMessages(v: Option<Json>, minMessage: Message): (ms: seq<Message>)
    ensures ms == [] <==> v.Some? && v.value.JString? && v.value.s != ""
    ensures |ms| <= 1
  {
    match v
    case None => [Required]
    case Some(JString(s)) => if s == "" then [minMessage] else []
    case Some(other) => [Expected(StringType, TypeOf(other))]
  }

  /** `z.coerce.number().int().min(1, ...)`: NaN aborts; otherwise both checks run. */
  function QuantityMessages(v: Option<Json>): (ms: seq<Message>)
    ensures ms == [] <==> v.Some? && IsInteger(JsonToNumber(v.value)) && JsonToNumber(v.value).value >= 1.0
  {
    var n := if v.Some? then JsonToNumber(v.value) else NaN;
    match n
    case NaN => [Expected(NumberType, NaNType)]
    case Finite(x) =>
      (if x == x.Floor as real then [] else [Expected(IntegerType, FloatType)])
      + (if x >= 1.0 then [] else [QuantityAtLeastOne])
  }

  function Lookup(fields: map<string, Json>, f: ItemField): Option<Json> {
    if f.Key() in fields then Some(fields[f.Key()]) else None
  }

  function FieldMessages(fields: map<string, Json>, f: ItemField): seq<Message> {
    match f
    case DrawingNumber => StringFieldMessages(Lookup(fields, f), DrawingNumberRequired)
    case ItemName => StringFieldMessages(Lookup(fields, f), ItemNameRequired)
    case Quantity => QuantityMessages(Lookup(fields, f))
  }

  /** Each message of `ms` as an issue at `path`. */
  function At(path: seq<PathSegment>, ms: seq<Message>): (issues: seq<Issue>)
    ensures |issues| == |ms|
    ensures forall k :: 0 <= k < |issues| ==> issues[k] == Issue(path, ms[k])
  {
    if ms == [] then [] else [Issue(path, ms[0])] + At(path, ms[1..])
  }

  /** The issues of item `i`, field by field in declaration order. */
  function ItemIssues(i: nat, item: Json): seq<Issue> {
    match item
    case JObject(fields) =>
      At([Index(i), Field(DrawingNumber)], FieldMessages(fields, DrawingNumber))
      + At([Index(i), Field(ItemName)], FieldMessages(fields, ItemName))
      + At([Index(i), Field(Quantity)], FieldMessages(fields, Quantity))
    case _ => [Issue([Index(i)], Expected(ObjectType, TypeOf(item)))]
  }

  /** The issues of the items `items`, the first of which is item `offset`. */
  function ElementIssues(items: seq<Json>, offset: nat): seq<Issue> {
    if items == [] then [] else ItemIssues(offset, items[0]) + ElementIssues(items[1..], offset + 1)
  }

  /** Every issue of the schema, for the raw form value and a JSON parser. */
  function MaterialIssues(materialsData: Option<string>, parse: string -> Option<Json>): seq<Issue> {
    match materialsData
    case None => [Issue([], Expected(StringType, NullType))]
    case Some(text) =>
      if text == "" then [Issue([], MaterialsRequired)]
      else match parse(text)
        case None => [Issue([], MaterialsMalformed)]
        case Some(JArray(items)) =>
          if |items| == 0 then [Issue([], MaterialsRequired)] else ElementIssues(items, 0)
        case Some(other) => [Issue([], Expected(ArrayType, TypeOf(other)))]
  }

  /** An item the schema accepts, stated directly. */
  predicate ValidItem(item: Json) {
    && item.JObject?
    && DrawingNumber.Key() in item.fields && item.fields[DrawingNumber.Key()].JString?
    && item.fields[DrawingNumber.Key()].s != ""
    && ItemName.Key() in item.fields && item.fields[ItemName.Key()].JString?
    && item.fields[ItemName.Key()].s != ""
    && Quantity.Key() in item.fields
    && IsInteger(JsonToNumber(item.fields[Quantity.Key()]))
    && JsonToNumber(item.fields[Quantity.Key()]).value >= 1.0
  }

  /** The whole input the schema accepts, stated directly. */
  predicate ValidMaterials(materialsData: Option<string>, parse: string -> Option<Json>) {
    && materialsData.Some? && materialsData.value != ""
    && parse(materialsData.value).Some? && parse(materialsData.value).value.JArray?
    && |parse(materialsData.value).value.items| >= 1
    && forall i :: 0 <= i < |parse(materialsData.value).value.items| ==>
         ValidItem(parse(materialsData.value).value.items[i])
  }

  lemma ItemIssuesEmptyIff(i: nat, item: Json)
    ensures ItemIssues(i, item) == [] <==> ValidItem(item)
  {
    if item.JObject? {
      var fs := item.fields;
      assert ItemIssues(i, item) == [] <==>
        FieldMessages(fs, DrawingNumber) == [] && FieldMessages(fs, ItemName) == []
        && FieldMessages(fs, Quantity) == [];
    }
  }

  lemma {:induction false} ElementIssuesEmptyIff(items: seq<Json>, offset: nat)
    ensures ElementIssues(items, offset) == [] <==> forall i :: 0 <= i < |items| ==> ValidItem(items[i])
    decreases |items|
  {
    if items != [] {
      ItemIssuesEmptyIff(offset, items[0]);
      ElementIssuesEmptyIff(items[1..], offset + 1);
      assert forall i :: 1 <= i < |items| ==> items[i] == items[1..][i - 1];
    }
  }

  /** The schema raises no issue exactly for input meeting the rules stated directly. */
  lemma MaterialIssuesEmptyIff(materialsData: Option<string>, parse: string -> Option<Json>)
    ensures MaterialIssues(materialsData, parse) == [] <==> ValidMaterials(materialsData, parse)
  {
    if materialsData.Some? && materialsData.value != "" {
      var p := parse(materialsData.value);
      if p.Some? && p.value.JArray? && |p.value.items| >= 1 {
        ElementIssuesEmptyIff(p.value.items, 0);
      }
    }
  }

  /** The shape of an item's issues: a field issue names its row and field, any other only its row. */
  predicate RowShaped(issue: Issue, offset: nat, count: nat) {
    && 1 <= |issue.path| <= 2
    && issue.path[0].Index? && offset <= issue.path[0].i < offset + count
    && (|issue.path| == 2 ==> issue.path[1].Field?)
  }

  lemma ItemIssuesShape(i: nat, item: Json)
    ensures forall k :: 0 <= k < |ItemIssues(i, item)| ==> RowShaped(ItemIssues(i, item)[k], i, 1)
  {
  }

  lemma {:induction false} ElementIssuesShape(items: seq<Json>, offset: nat)
    ensures forall k :: 0 <= k < |ElementIssues(items, offset)| ==>
      RowShaped(ElementIssues(items, offset)[k], offset, |items|)
    decreases |items|
  {
    if items != [] {
      ItemIssuesShape(offset, items[0]);
      ElementIssuesShape(items[1..], offset + 1);
      var head := ItemIssues(offset, items[0]);
      var tail := ElementIssues(items[1..], offset + 1);
      assert ElementIssues(items, offset) == head + tail;
      forall k | 0 <= k < |head + tail|
        ensures RowShaped((head + tail)[k], offset, |items|)
      {
        if k < |head| {
          assert RowShaped(head[k], offset, 1);
        } else {
          assert RowShaped(tail[k - |head|], offset + 1, |items| - 1);
        }
      }
    }
  }

  /**
   * The input is rejected as a whole (no row named) when it is missing,
   * empty, not JSON, not an array or an empty array; otherwise every issue
   * names a row of the parsed array.
   */
  lemma IssueShape(materialsData: Option<string>, parse: string -> Option<Json>)
    ensures var issues := MaterialIssues(materialsData, parse);
      if materialsData.Some? && materialsData.value != "" && parse(materialsData.value).Some?
         && parse(materialsData.value).value.JArray? && |parse(materialsData.value).value.items| >= 1
      then forall k :: 0 <= k < |issues| ==>
        RowShaped(issues[k], 0, |parse(materialsData.value).value.items|)
      else |issues| == 1 && issues[0].path == []
  {
    if materialsData.Some? && materialsData.value != "" {
      var p := parse(materialsData.value);
      if p.Some? && p.value.JArray? && |p.value.items| >= 1 {
        ElementIssuesShape(p.value.items, 0);
      }
    }
  }

  /** Coercion as it applies to the common inputs: numbers, numeric strings, `null`, `[]`. */
  lemma QuantityCoercionExamples()
    ensures QuantityMessages(Some(JNumber(3.0))) == []
    ensures QuantityMessages(Some(JString("3"))) == []
    ensures QuantityMessages(Some(JNull)) == [QuantityAtLeastOne]
    ensures QuantityMessages(Some(JArray([]))) == [QuantityAtLeastOne]
    ensures QuantityMessages(Some(JNumber(2.5))) == [Expected(IntegerType, FloatType)]
    ensures QuantityMessages(None) == [Expected(NumberType, NaNType)]
  {
    DigitsAreInteger("3");
  }

  /** What the backend receives for one accepted item. */
  datatype MaterialItem = MaterialItem(drawingNumber: string, itemName: string, quantity: int)

  /** The parsed item: unknown keys dropped, the quantity as the integer it coerced to. */
  function ToItem(item: Json): (m: MaterialItem)
    requires ValidItem(item)
    ensures m.drawingNumber == item.fields[DrawingNumber.Key()].s && m.drawingNumber != ""
    ensures m.itemName == item.fields[ItemName.Key()].s && m.itemName != ""
    ensures m.quantity as real == JsonToNumber(item.fields[Quantity.Key()]).value && m.quantity >= 1
  {
    MaterialItem(item.fields[DrawingNumber.Key()].s, item.fields[ItemName.Key()].s,
                 JsonToNumber(item.fields[Quantity.Key()]).value.Floor)
  }

  function ToItems(items: seq<Json>): (ms: seq<MaterialItem>)
    requires forall i :: 0 <= i < |items| ==> ValidItem(items[i])
    ensures |ms| == |items|
    ensures forall i :: 0 <= i < |items| ==> ms[i] == ToItem(items[i])
  {
    seq(|items|, i requires 0 <= i < |items| => ToItem(items[i]))
  }

  /** An otherwise valid item with quantity 0.5 gets the integer issue and then the minimum issue. */
  lemma FractionQuantityIssues(text: string, parse: string -> Option<Json>)
    requires text != ""
    requires parse(text) == Some(JArray([JObject(map[
      DrawingNumber.Key() := JString("A"), ItemName.Key() := JString("B"), Quantity.Key() := JNumber(0.5)])]))
    ensures MaterialIssues(Some(text), parse) ==
      [Issue([Index(0), Field(Quantity)], Expected(IntegerType, FloatType)),
       Issue([Index(0), Field(Quantity)], QuantityAtLeastOne)]
  {
    var item := parse(text).value.items[0];
    assert (0.5).Floor == 0;
    assert FieldMessages(item.fields, DrawingNumber) == [];
    assert FieldMessages(item.fields, ItemName) == [];
    assert FieldMessages(item.fields, Quantity) == [Expected(IntegerType, FloatType), QuantityAtLeastOne];
  }
}
