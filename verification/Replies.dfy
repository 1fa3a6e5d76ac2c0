/** JavaScript values, the BigInt interceptor and JSON: a reply replayed from the cache equals the original on the
    wire. */
module Replies {
  import opened Wrappers
  import Money

  // Numbers are finite; a Date is given by its toISOString text.
  datatype JsVal =
    | Null
    | Undefined
    | Bool(b: bool)
    | Num(n: int)
    | Str(s: string)
    | BigInt(i: int)
    | Date(iso: string)
    | Arr(items: seq<JsVal>)
    | Obj(fields: seq<Field>)

  datatype Field = Field(key: string, val: JsVal)

  function Decimal(i: int): string {
    if i == 0 then "0" else if i < 0 then "-" + Money.Print(-i) else Money.Print(i)
  }

  // ---------------------------------------------------------------- serializeBigInt

  function Serialize(v: JsVal): JsVal {
    match v
    case BigInt(i) => Str(Decimal(i))
    case Date(iso) => Str(iso)
    case Arr(items) => Arr(SerializeItems(items))
    case Obj(fields) => Obj(SerializeFields(fields))
    case _ => v
  }

  function SerializeItems(items: seq<JsVal>): seq<JsVal> {
    if items == [] then [] else SerializeItems(items[..|items| - 1]) + [Serialize(items[|items| - 1])]
  }

  function SerializeFields(fields: seq<Field>): seq<Field> {
    if fields == [] then []
    else
      var f := fields[|fields| - 1];
      SerializeFields(fields[..|fields| - 1]) + [Field(f.key, Serialize(f.val))]
  }

  /** The interceptor's own form: map over arrays, a loop over the keys of an object. */
  method SerializeBigInt(v: JsVal) returns (r: JsVal)
    ensures r == Serialize(v)
    decreases v
  {
    match v
    case Null => return v;
    case Undefined => return v;
    case BigInt(i) => return Str(Decimal(i));
    case Date(iso) => return Str(iso);
    case Arr(items) =>
      var out: seq<JsVal> := [];
      for k := 0 to |items|
        invariant out == SerializeItems(items[..k])
      {
        var x := SerializeBigInt(items[k]);
        assert items[..k + 1][..k] == items[..k];
        out := out + [x];
      }
      assert items[..|items|] == items;
      return Arr(out);
    case Obj(fields) =>
      var out: seq<Field> := [];
      for k := 0 to |fields|
        invariant out == SerializeFields(fields[..k])
      {
        var x := SerializeBigInt(fields[k].val);
        assert fields[..k + 1][..k] == fields[..k];
        out := out + [Field(fields[k].key, x)];
      }
      assert fields[..|fields|] == fields;
      return Obj(out);
    case _ => return v;
  }

  // ---------------------------------------------------------------- what it makes of each value

  /** The integer a decimal text with an optional sign stands for. */
  function Integer(s: string): int {
    if s != "" && s[0] == '-' then -Money.ParseDigits(s[1..]) else Money.ParseDigits(s)
  }

  predicate CanonicalInteger(s: string) {
    s == "0" || Money.PositiveMinorUnits(s) || (s != "" && s[0] == '-' && Money.PositiveMinorUnits(s[1..]))
  }

  lemma DecimalIsInteger(i: int)
    ensures Integer(Decimal(i)) == i && CanonicalInteger(Decimal(i))
  {
    if i > 0 {
      Money.PrintIsCanonical(i);
    } else if i < 0 {
      Money.PrintIsCanonical(-i);
      assert Decimal(i)[1..] == Money.Print(-i);
    } else {
      assert "0"[..0] == "";
    }
  }

  /** `r` is `v` with every BigInt replaced by its canonical decimal text and every date by its ISO text, the keys and
      the order of everything else kept. */
  ghost predicate Serializes(v: JsVal, r: JsVal)
    decreases v
  {
    match v
    case BigInt(i) => r.Str? && Integer(r.s) == i && CanonicalInteger(r.s)
    case Date(iso) => r == Str(iso)
    case Arr(items) =>
      && r.Arr? && |r.items| == |items|
      && forall k :: 0 <= k < |items| ==> Serializes(items[k], r.items[k])
    case Obj(fields) =>
      && r.Obj? && |r.fields| == |fields|
      && forall k :: 0 <= k < |fields| ==>
           r.fields[k].key == fields[k].key && Serializes(fields[k].val, r.fields[k].val)
    case _ => r == v
  }

  lemma {:induction false} SerializeMeans(v: JsVal)
    ensures Serializes(v, Serialize(v))
    decreases v, 0
  {
    match v
    case BigInt(i) => DecimalIsInteger(i);
    case Arr(items) => SerializeItemsMeans(items);
    case Obj(fields) => SerializeFieldsMeans(fields);
    case _ =>
  }

  lemma {:induction false} SerializeItemsMeans(items: seq<JsVal>)
    ensures |SerializeItems(items)| == |items|
    ensures forall k :: 0 <= k < |items| ==> Serializes(items[k], SerializeItems(items)[k])
    decreases items, 1
  {
    if items != [] {
      var rest := items[..|items| - 1];
      SerializeItemsMeans(rest);
      SerializeMeans(items[|items| - 1]);
      assert forall k :: 0 <= k < |rest| ==> rest[k] == items[k];
    }
  }

  lemma {:induction false} SerializeFieldsMeans(fields: seq<Field>)
    ensures |SerializeFields(fields)| == |fields|
    ensures forall k :: 0 <= k < |fields| ==>
              && SerializeFields(fields)[k].key == fields[k].key
              && Serializes(fields[k].val, SerializeFields(fields)[k].val)
    decreases fields, 1
  {
    if fields != [] {
      var rest := fields[..|fields| - 1];
      SerializeFieldsMeans(rest);
      SerializeMeans(fields[|fields| - 1].val);
      assert forall k :: 0 <= k < |rest| ==> rest[k] == fields[k];
    }
  }

  // ---------------------------------------------------------------- JSON

  datatype Json =
    | JNull
    | JBool(b: bool)
    | JNum(n: int)
    | JStr(s: string)
    | JArr(items: seq<Json>)
    | JObj(members: seq<Member>)

  datatype Member = Member(key: string, val: Json)

  // What JSON.stringify makes of a value: text, nothing (undefined), or a TypeError.
  datatype Text = Text(json: Json) | Nothing | TypeError

  function Stringify(v: JsVal): Text {
    match v
    case Null => Text(JNull)
    case Undefined => Nothing
    case Bool(b) => Text(JBool(b))
    case Num(n) => Text(JNum(n))
    case Str(s) => Text(JStr(s))
    case BigInt(_) => TypeError
    case Date(iso) => Text(JStr(iso))
    case Arr(items) =>
      (match StringifyItems(items)
       case None => TypeError
       case Some(js) => Text(JArr(js)))
    case Obj(fields) =>
      (match StringifyFields(fields)
       case None => TypeError
       case Some(ms) => Text(JObj(ms)))
  }

  function StringifyItems(items: seq<JsVal>): Option<seq<Json>> {
    if items == [] then Some([])
    else match (StringifyItems(items[..|items| - 1]), Stringify(items[|items| - 1]))
         case (Some(js), Text(j)) => Some(js + [j])
         case (Some(js), Nothing) => Some(js + [JNull])  // undefined in an array becomes null
         case _ => None
  }

  function StringifyFields(fields: seq<Field>): Option<seq<Member>> {
    if fields == [] then Some([])
    else
      var f := fields[|fields| - 1];
      match (StringifyFields(fields[..|fields| - 1]), Stringify(f.val))
      case (Some(ms), Text(j)) => Some(ms + [Member(f.key, j)])
      case (Some(ms), Nothing) => Some(ms)               // undefined members are left out
      case _ => None
  }

  function Parse(j: Json): JsVal {
    match j
    case JNull => Null
    case JBool(b) => Bool(b)
    case JNum(n) => Num(n)
    case JStr(s) => Str(s)
    case JArr(items) => Arr(ParseItems(items))
    case JObj(members) => Obj(ParseMembers(members))
  }

  function ParseItems(items: seq<Json>): seq<JsVal> {
    if items == [] then [] else ParseItems(items[..|items| - 1]) + [Parse(items[|items| - 1])]
  }

  function ParseMembers(members: seq<Member>): seq<Field> {
    if members == [] then []
    else
      var m := members[|members| - 1];
      ParseMembers(members[..|members| - 1]) + [Field(m.key, Parse(m.val))]
  }

  /** The body a client receives for a handler's or a cached value. */
  function Wire(v: JsVal): Text {
    Stringify(Serialize(v))
  }

  predicate BigIntFree(v: JsVal) {
    match v
    case BigInt(_) => false
    case Arr(items) => forall k :: 0 <= k < |items| ==> BigIntFree(items[k])
    case Obj(fields) => forall k :: 0 <= k < |fields| ==> BigIntFree(fields[k].val)
    case _ => true
  }

  // ---------------------------------------------------------------- what may be cached

  lemma {:induction false} StringifiesWithoutBigInt(v: JsVal)
    ensures Stringify(v) != TypeError <==> BigIntFree(v)
    decreases v, 0
  {
    match v
    case Arr(items) => ItemsWithoutBigInt(items);
    case Obj(fields) => FieldsWithoutBigInt(fields);
    case _ =>
  }

  lemma {:induction false} ItemsWithoutBigInt(items: seq<JsVal>)
    ensures StringifyItems(items).Some? <==> forall k :: 0 <= k < |items| ==> BigIntFree(items[k])
    decreases items, 1
  {
    if items != [] {
      var rest := items[..|items| - 1];
      ItemsWithoutBigInt(rest);
      StringifiesWithoutBigInt(items[|items| - 1]);
      assert forall k :: 0 <= k < |rest| ==> rest[k] == items[k];
    }
  }

  lemma {:induction false} FieldsWithoutBigInt(fields: seq<Field>)
    ensures StringifyFields(fields).Some? <==> forall k :: 0 <= k < |fields| ==> BigIntFree(fields[k].val)
    decreases fields, 1
  {
    if fields != [] {
      var rest := fields[..|fields| - 1];
      FieldsWithoutBigInt(rest);
      StringifiesWithoutBigInt(fields[|fields| - 1].val);
      assert forall k :: 0 <= k < |rest| ==> rest[k] == fields[k];
    }
  }

  // ---------------------------------------------------------------- serializing changes nothing JSON keeps

  lemma {:induction false} SerializedText(v: JsVal)
    ensures Stringify(v) != TypeError ==> Wire(v) == Stringify(v)
    ensures Wire(v) != TypeError
    decreases v, 0
  {
    match v
    case Arr(items) => SerializedItems(items);
    case Obj(fields) => SerializedFields(fields);
    case _ =>
  }

  lemma {:induction false} SerializedItems(items: seq<JsVal>)
    ensures StringifyItems(SerializeItems(items)).Some?
    ensures StringifyItems(items).Some? ==> StringifyItems(SerializeItems(items)) == StringifyItems(items)
    decreases items, 1
  {
    if items != [] {
      var rest := items[..|items| - 1];
      SerializedItems(rest);
      SerializedText(items[|items| - 1]);
      assert SerializeItems(items)[..|SerializeItems(items)| - 1] == SerializeItems(rest);
    }
  }

  lemma {:induction false} SerializedFields(fields: seq<Field>)
    ensures StringifyFields(SerializeFields(fields)).Some?
    ensures StringifyFields(fields).Some? ==> StringifyFields(SerializeFields(fields)) == StringifyFields(fields)
    decreases fields, 1
  {
    if fields != [] {
      var rest := fields[..|fields| - 1];
      SerializedFields(rest);
      SerializedText(fields[|fields| - 1].val);
      assert SerializeFields(fields)[..|SerializeFields(fields)| - 1] == SerializeFields(rest);
    }
  }

  lemma {:induction false} ParsedText(j: Json)
    ensures Stringify(Parse(j)) == Text(j)
    decreases j, 0
  {
    match j
    case JArr(items) => ParsedItems(items);
    case JObj(members) => ParsedMembers(members);
    case _ =>
  }

  lemma {:induction false} ParsedItems(items: seq<Json>)
    ensures StringifyItems(ParseItems(items)) == Some(items)
    decreases items, 1
  {
    if items != [] {
      var rest := items[..|items| - 1];
      ParsedItems(rest);
      ParsedText(items[|items| - 1]);
      assert ParseItems(items)[..|ParseItems(items)| - 1] == ParseItems(rest);
      assert items == rest + [items[|items| - 1]];
    }
  }

  lemma {:induction false} ParsedMembers(members: seq<Member>)
    ensures StringifyFields(ParseMembers(members)) == Some(members)
    decreases members, 1
  {
    if members != [] {
      var rest := members[..|members| - 1];
      ParsedMembers(rest);
      ParsedText(members[|members| - 1].val);
      assert ParseMembers(members)[..|ParseMembers(members)| - 1] == ParseMembers(rest);
      assert members == rest + [members[|members| - 1]];
    }
  }

  /** A reply can be stored exactly when it holds no BigInt, and then the replayed body equals the original one. */
  lemma ReplayedReplyIsEqual(reply: JsVal)
    ensures Stringify(reply) != TypeError <==> BigIntFree(reply)
    ensures Stringify(reply).Text? ==> Wire(Parse(Stringify(reply).json)) == Wire(reply) == Stringify(reply)
  {
    StringifiesWithoutBigInt(reply);
    SerializedText(reply);
    if Stringify(reply).Text? {
      var j := Stringify(reply).json;
      ParsedText(j);
      SerializedText(Parse(j));
    }
  }

  // The reply of a committed transfer; only createdAt is not a string yet.
  function TransferFields(trxId: string, kind: string, status: string, amount: string, fee: string, createdAt: string,
                          newBalance: string): seq<Field>
  {
    [Field("trxId", Str(trxId)), Field("type", Str(kind)), Field("status", Str(status)), Field("amount", Str(amount)),
     Field("fee", Str(fee)), Field("createdAt", Date(createdAt)), Field("newBalance", Str(newBalance))]
  }

  /** Transfer replies are storable, so their replays are equal as JSON. */
  lemma TransferRepliesReplay(trxId: string, kind: string, status: string, amount: string, fee: string,
                              createdAt: string, newBalance: string)
    ensures var r := Obj(TransferFields(trxId, kind, status, amount, fee, createdAt, newBalance));
            Stringify(r).Text? && Stringify(r).json.JObj? && Wire(Parse(Stringify(r).json)) == Wire(r)
  {
    ReplayedReplyIsEqual(Obj(TransferFields(trxId, kind, status, amount, fee, createdAt, newBalance)));
  }
}
