/** `processData`: a webhook payload to chart records. An array payload gives
    one record per element, an object payload one record per entry (the key
    is the fallback date); anything else gives no records. Each field is the
    first truthy value among a list of alias keys, and the date is passed
    through `parseDDMMYYYY`. */
module DataNormalizer {
  import opened Calendar
  import opened JsValue
  import opened DateParser

  /** One chart point. The numeric fields keep whatever value the payload
      held; only a missing or falsy value is replaced by `0`. */
  datatype ChartRecord = ChartRecord(date: string, orderSum: Value, volume: Value, sales: Value)

  /** Alias keys for an element of an array payload, in priority order. */
  const ArrayDateKeys: seq<string> := ["Дата", "дата", "Date", "date", "DATE", "day", "Day"]
  const ArrayOrderSumKeys: seq<string> := ["Сумма заказа", "orderSum", "order_sum", "sum"]
  const ArrayVolumeKeys: seq<string> := ["Объём", "volume", "Volume", "объем"]
  const ArraySalesKeys: seq<string> := ["Продажи", "sales", "Sales", "продажи"]

  /** Alias keys for the value of an entry of an object payload, in priority
      order: the English names come first here. */
  const EntryDateKeys: seq<string> := ["Дата", "дата", "Date", "date"]
  const EntryOrderSumKeys: seq<string> := ["orderSum", "order_sum", "Сумма заказа", "sum"]
  const EntryVolumeKeys: seq<string> := ["volume", "Volume", "Объём", "объем"]
  const EntrySalesKeys: seq<string> := ["sales", "Sales", "Продажи", "продажи"]

  /** The chain `item[keys[0]] || item[keys[1]] || ... || fallback`: the
      first truthy read, or the fallback when no read is truthy. */
  function Pick(item: Value, keys: seq<string>, fallback: Value): (r: Value)
    ensures (forall k :: 0 <= k < |keys| ==> !Truthy(Get(item, keys[k]))) ==> r == fallback
    ensures forall k :: (0 <= k < |keys| && Truthy(Get(item, keys[k]))
                         && forall i :: 0 <= i < k ==> !Truthy(Get(item, keys[i]))) ==> r == Get(item, keys[k])
  {
    PickFrom(item, keys, fallback, 0)
  }

  /** `Pick` over the keys from index `n` on. */
  function PickFrom(item: Value, keys: seq<string>, fallback: Value, n: nat): (r: Value)
    requires n <= |keys|
    ensures (forall k :: n <= k < |keys| ==> !Truthy(Get(item, keys[k]))) ==> r == fallback
    ensures forall k :: (n <= k < |keys| && Truthy(Get(item, keys[k]))
                         && forall i :: n <= i < k ==> !Truthy(Get(item, keys[i]))) ==> r == Get(item, keys[k])
    decreases |keys| - n
  {
    if n == |keys| then fallback
    else if Truthy(Get(item, keys[n])) then Get(item, keys[n])
    else PickFrom(item, keys, fallback, n + 1)
  }

  /** `v` is what the chain `item[keys[0]] || ... || fallback` yields: the
      read under the first key whose read is truthy, or `fallback` when no
      read is truthy. */
  ghost predicate IsFirstTruthyAlias(item: Value, keys: seq<string>, fallback: Value, v: Value) {
    || (exists k :: 0 <= k < |keys| && Truthy(Get(item, keys[k]))
                    && (forall i :: 0 <= i < k ==> !Truthy(Get(item, keys[i])))
                    && v == Get(item, keys[k]))
    || ((forall k :: 0 <= k < |keys| ==> !Truthy(Get(item, keys[k]))) && v == fallback)
  }

  /** The description fixes the value: two values that both fit it are equal. */
  lemma FirstTruthyAliasUnique(item: Value, keys: seq<string>, fallback: Value, v: Value, w: Value)
    requires IsFirstTruthyAlias(item, keys, fallback, v)
    requires IsFirstTruthyAlias(item, keys, fallback, w)
    ensures v == w
  {
    if exists k :: 0 <= k < |keys| && Truthy(Get(item, keys[k]))
                   && (forall i :: 0 <= i < k ==> !Truthy(Get(item, keys[i]))) && v == Get(item, keys[k]) {
      var k :| 0 <= k < |keys| && Truthy(Get(item, keys[k]))
               && (forall i :: 0 <= i < k ==> !Truthy(Get(item, keys[i]))) && v == Get(item, keys[k]);
      if exists j :: 0 <= j < |keys| && Truthy(Get(item, keys[j]))
                     && (forall i :: 0 <= i < j ==> !Truthy(Get(item, keys[i]))) && w == Get(item, keys[j]) {
        var j :| 0 <= j < |keys| && Truthy(Get(item, keys[j]))
                 && (forall i :: 0 <= i < j ==> !Truthy(Get(item, keys[i]))) && w == Get(item, keys[j]);
        assert !(j < k) && !(k < j);
      }
    }
  }

  /** The first key, from `n` on, whose read is truthy. */
  lemma {:induction false} LeastTruthyKey(item: Value, keys: seq<string>, n: nat) returns (k: nat)
    requires n <= |keys|
    requires forall i :: 0 <= i < n ==> !Truthy(Get(item, keys[i]))
    requires exists j :: n <= j < |keys| && Truthy(Get(item, keys[j]))
    ensures n <= k < |keys| && Truthy(Get(item, keys[k]))
    ensures forall i :: 0 <= i < k ==> !Truthy(Get(item, keys[i]))
    decreases |keys| - n
  {
    if Truthy(Get(item, keys[n])) {
      k := n;
    } else {
      k := LeastTruthyKey(item, keys, n + 1);
    }
  }

  /** `Pick` computes the value the alias chain is described to yield. */
  lemma PickIsFirstTruthyAlias(item: Value, keys: seq<string>, fallback: Value)
    ensures IsFirstTruthyAlias(item, keys, fallback, Pick(item, keys, fallback))
  {
    if exists j :: 0 <= j < |keys| && Truthy(Get(item, keys[j])) {
      var k := LeastTruthyKey(item, keys, 0);
      assert Pick(item, keys, fallback) == Get(item, keys[k]);
    }
  }

  /** A picked field is a truthy value read under one of the keys, or the
      fallback. */
  lemma PickIsTruthyOrFallback(item: Value, keys: seq<string>, fallback: Value)
    ensures Truthy(Pick(item, keys, fallback)) || Pick(item, keys, fallback) == fallback
  {
    PickIsFirstTruthyAlias(item, keys, fallback);
  }

  /** `new Date().toLocaleDateString('ru-RU')`. */
  function TodayText(eng: Engine): Value {
    Str(Format(eng.today))
  }

  /** The record for one element of an array payload. The element must not
      be `null` or `undefined`: reading a property of either throws. */
  function ArrayRecord(eng: Engine, item: Value): (r: ChartRecord)
    requires !item.Null? && !item.Undefined?
    ensures exists v :: IsFirstTruthyAlias(item, ArrayDateKeys, TodayText(eng), v) && r.date == ParseDDMMYYYY(eng, v)
    ensures IsFirstTruthyAlias(item, ArrayOrderSumKeys, Num(0.0), r.orderSum)
    ensures IsFirstTruthyAlias(item, ArrayVolumeKeys, Num(0.0), r.volume)
    ensures IsFirstTruthyAlias(item, ArraySalesKeys, Num(0.0), r.sales)
  {
    PickIsFirstTruthyAlias(item, ArrayDateKeys, TodayText(eng));
    PickIsFirstTruthyAlias(item, ArrayOrderSumKeys, Num(0.0));
    PickIsFirstTruthyAlias(item, ArrayVolumeKeys, Num(0.0));
    PickIsFirstTruthyAlias(item, ArraySalesKeys, Num(0.0));
    ChartRecord(
      ParseDDMMYYYY(eng, Pick(item, ArrayDateKeys, TodayText(eng))),
      Pick(item, ArrayOrderSumKeys, Num(0.0)),
      Pick(item, ArrayVolumeKeys, Num(0.0)),
      Pick(item, ArraySalesKeys, Num(0.0)))
  }

  /** `typeof v === 'object'` for a truthy value. */
  predicate IsObjectLike(v: Value) {
    v.Obj? || v.Arr? || v.DateObj?
  }

  /** The date value of an entry: the value's own date field when the value
      is an object that has one of the four date keys, else the entry's key.
      The `in` tests change nothing: it is the chain over the four date keys
      with the entry's key last. */
  function EmbeddedDate(key: string, value: Value): (d: Value)
    ensures d == Pick(value, EntryDateKeys, Str(key))
  {
    if Truthy(value) && IsObjectLike(value)
       && (HasProperty(value, EntryDateKeys[0]) || HasProperty(value, EntryDateKeys[1])
           || HasProperty(value, EntryDateKeys[2]) || HasProperty(value, EntryDateKeys[3]))
    then Pick(value, EntryDateKeys, Str(key))
    else
      NoDateKeyReadsUndefined(value);
      Str(key)
  }

  /** A value that fails the `in` tests reads `undefined` under every date key. */
  lemma NoDateKeyReadsUndefined(value: Value)
    requires !(Truthy(value) && IsObjectLike(value)
               && (HasProperty(value, EntryDateKeys[0]) || HasProperty(value, EntryDateKeys[1])
                   || HasProperty(value, EntryDateKeys[2]) || HasProperty(value, EntryDateKeys[3])))
    ensures forall k :: 0 <= k < |EntryDateKeys| ==> Get(value, EntryDateKeys[k]) == Undefined
  {
    forall k | 0 <= k < |EntryDateKeys| ensures Get(value, EntryDateKeys[k]) == Undefined {
      assert !HasProperty(value, EntryDateKeys[k]) by {
        assert k == 0 || k == 1 || k == 2 || k == 3;
      }
      MissingPropertyIsUndefined(value, EntryDateKeys[k]);
    }
  }

  /** The record for one entry `[key, value]` of an object payload; the
      reads use optional chaining, so any value is accepted. */
  function EntryRecord(eng: Engine, key: string, value: Value): (r: ChartRecord)
    ensures exists v :: IsFirstTruthyAlias(value, EntryDateKeys, Str(key), v) && r.date == ParseDDMMYYYY(eng, v)
    ensures IsFirstTruthyAlias(value, EntryOrderSumKeys, Num(0.0), r.orderSum)
    ensures IsFirstTruthyAlias(value, EntryVolumeKeys, Num(0.0), r.volume)
    ensures IsFirstTruthyAlias(value, EntrySalesKeys, Num(0.0), r.sales)
  {
    PickIsFirstTruthyAlias(value, EntryDateKeys, Str(key));
    PickIsFirstTruthyAlias(value, EntryOrderSumKeys, Num(0.0));
    PickIsFirstTruthyAlias(value, EntryVolumeKeys, Num(0.0));
    PickIsFirstTruthyAlias(value, EntrySalesKeys, Num(0.0));
    ChartRecord(
      ParseDDMMYYYY(eng, EmbeddedDate(key, value)),
      Pick(value, EntryOrderSumKeys, Num(0.0)),
      Pick(value, EntryVolumeKeys, Num(0.0)),
      Pick(value, EntrySalesKeys, Num(0.0)))
  }

  /** An array payload holds no `null` or `undefined` element. */
  predicate NoMissingItems(raw: Value) {
    raw.Arr? ==> forall i :: 0 <= i < |raw.elems| ==> !raw.elems[i].Null? && !raw.elems[i].Undefined?
  }

  /** `processData`. An array payload keeps its length and order (record i
      comes from element i); an object payload gives one record per entry,
      in entry order; anything else, `Date` included (an object without own
      enumerable entries), gives no records. */
  function ProcessData(eng: Engine, raw: Value): (r: seq<ChartRecord>)
    requires NoMissingItems(raw)
    ensures raw.Arr? ==> |r| == |raw.elems|
                         && forall i :: 0 <= i < |r| ==> r[i] == ArrayRecord(eng, raw.elems[i])
    ensures raw.Obj? ==> |r| == |raw.entries|
                         && forall i :: 0 <= i < |r| ==> r[i] == EntryRecord(eng, raw.entries[i].0, raw.entries[i].1)
    ensures !raw.Arr? && !raw.Obj? ==> r == []
  {
    match raw
    case Arr(items) =>
      seq(|items|, i requires 0 <= i < |items| && !items[i].Null? && !items[i].Undefined? =>
        ArrayRecord(eng, items[i]))
    case Obj(entries) =>
      seq(|entries|, i requires 0 <= i < |entries| => EntryRecord(eng, entries[i].0, entries[i].1))
    case _ => []
  }

  /** A one-element array payload gives the one record of its element. */
  lemma SingleItemPayload(eng: Engine, item: Value)
    requires !item.Null? && !item.Undefined?
    ensures ProcessData(eng, Arr([item])) == [ArrayRecord(eng, item)]
  {
    assert NoMissingItems(Arr([item]));
    var r := ProcessData(eng, Arr([item]));
    assert |r| == 1 && r[0] == ArrayRecord(eng, item);
  }

  /** A one-entry object payload gives the one record of its entry. */
  lemma SingleEntryPayload(eng: Engine, key: string, value: Value)
    ensures ProcessData(eng, Obj([(key, value)])) == [EntryRecord(eng, key, value)]
  {
    var r := ProcessData(eng, Obj([(key, value)]));
    assert |r| == 1 && r[0] == EntryRecord(eng, key, value);
  }

  /** Every numeric field is either a truthy value from the payload or `0`. */
  lemma FieldsAreTruthyOrZero(eng: Engine, raw: Value, i: int)
    requires NoMissingItems(raw) && 0 <= i < |ProcessData(eng, raw)|
    ensures var r := ProcessData(eng, raw)[i];
            && (Truthy(r.orderSum) || r.orderSum == Num(0.0))
            && (Truthy(r.volume) || r.volume == Num(0.0))
            && (Truthy(r.sales) || r.sales == Num(0.0))
  {
    if raw.Arr? {
      var item := raw.elems[i];
      PickIsTruthyOrFallback(item, ArrayOrderSumKeys, Num(0.0));
      PickIsTruthyOrFallback(item, ArrayVolumeKeys, Num(0.0));
      PickIsTruthyOrFallback(item, ArraySalesKeys, Num(0.0));
    } else {
      var value := raw.entries[i].1;
      PickIsTruthyOrFallback(value, EntryOrderSumKeys, Num(0.0));
      PickIsTruthyOrFallback(value, EntryVolumeKeys, Num(0.0));
      PickIsTruthyOrFallback(value, EntrySalesKeys, Num(0.0));
    }
  }

  /** An entry whose value has none of the four date keys is dated by its
      key; in particular `DATE`, `day` and `Day` are read only from array
      elements. */
  lemma EntryDatedByKey(eng: Engine, key: string, value: Value)
    requires forall k :: 0 <= k < |EntryDateKeys| ==> !HasProperty(value, EntryDateKeys[k])
    ensures EntryRecord(eng, key, value).date == ParseDDMMYYYY(eng, Str(key))
  {
    assert !HasProperty(value, EntryDateKeys[0]) && !HasProperty(value, EntryDateKeys[1]);
    assert !HasProperty(value, EntryDateKeys[2]) && !HasProperty(value, EntryDateKeys[3]);
  }

  /** An array element without a truthy date field is dated by today's
      `ru-RU` text, which is itself passed through `parseDDMMYYYY` and so
      through the generic parser; it stays today's text when that parser
      refuses it. */
  lemma ArrayDefaultDate(eng: Engine, item: Value)
    requires !item.Null? && !item.Undefined?
    requires forall k :: 0 <= k < |ArrayDateKeys| ==> !Truthy(Get(item, ArrayDateKeys[k]))
    ensures ArrayRecord(eng, item).date == GenericParse(eng, Format(eng.today))
    ensures eng.parseDate(Format(eng.today)).None? ==> ArrayRecord(eng, item).date == Format(eng.today)
  {
    assert Pick(item, ArrayDateKeys, TodayText(eng)) == TodayText(eng);
    TodayTextIsParsedAgain(eng);
  }

  /** Today's `ru-RU` text has full stops, so `parseDDMMYYYY` hands it to
      the generic parser. */
  lemma TodayTextIsParsedAgain(eng: Engine)
    ensures ParseDDMMYYYY(eng, TodayText(eng)) == GenericParse(eng, Format(eng.today))
  {
    var t := Format(eng.today);
    assert forall k :: 0 <= k < |t| ==> !IsJsWhitespace(t[k]);
    PlainText(eng, t);
    assert !IsEightDigits(t) by {
      var k :| 0 <= k < |t| && t[k] == '.';
    }
  }
}

/** Worked payloads for `processData`.

    Each worked payload is taken apart into one small lemma per fact: the
    value read under one key, the absence of the other keys, the result of
    one alias chain. Comparing literal keys and texts is costly for the
    solver, and one fact per lemma keeps every proof small; the example
    lemmas at the end of each group put the facts together. */
module DataNormalizerExamples {
  import opened JsValue
  import opened DateParser
  import opened DateParserExamples
  import opened DataNormalizer

  /** A key whose length differs from that of every key of an object is
      missing from it. */
  lemma KeyAbsent(item: Value, key: string)
    requires item.Obj? && forall j :: 0 <= j < |item.entries| ==> |item.entries[j].0| != |key|
    ensures Get(item, key) == Undefined
  {
  }

  /** A chain none of whose keys has the length of a key of the object
      yields its default. */
  lemma NoAliasPresent(item: Value, keys: seq<string>, fallback: Value)
    requires item.Obj?
    requires forall j, k :: 0 <= j < |item.entries| && 0 <= k < |keys| ==> |item.entries[j].0| != |keys[k]|
    ensures Pick(item, keys, fallback) == fallback
  {
  }

  /** A chain whose first truthy operand is the one under `keys[k]`. */
  lemma PickAt(item: Value, keys: seq<string>, fallback: Value, k: nat)
    requires k < |keys| && Truthy(Get(item, keys[k]))
    requires forall i :: 0 <= i < k ==> !Truthy(Get(item, keys[i]))
    ensures Pick(item, keys, fallback) == Get(item, keys[k])
  {
  }

  /** The object `{"Дата": "01012024", "Сумма заказа": 100}`. */
  function ArrayItem(): Value {
    Obj([("Дата", Str("01012024")), ("Сумма заказа", Num(100.0))])
  }

  lemma ArrayItemDate()
    ensures Get(ArrayItem(), ArrayDateKeys[0]) == Str("01012024")
  {
  }

  lemma ArrayItemOrderSum()
    ensures Get(ArrayItem(), ArrayOrderSumKeys[0]) == Num(100.0)
  {
  }

  lemma ArrayItemVolume()
    ensures Pick(ArrayItem(), ArrayVolumeKeys, Num(0.0)) == Num(0.0)
  {
    NoAliasPresent(ArrayItem(), ArrayVolumeKeys, Num(0.0));
  }

  lemma ArrayItemSales()
    ensures Pick(ArrayItem(), ArraySalesKeys, Num(0.0)) == Num(0.0)
  {
    NoAliasPresent(ArrayItem(), ArraySalesKeys, Num(0.0));
  }

  lemma ArrayItemPicks(fallback: Value)
    ensures Pick(ArrayItem(), ArrayDateKeys, fallback) == Str("01012024")
    ensures Pick(ArrayItem(), ArrayOrderSumKeys, Num(0.0)) == Num(100.0)
  {
    ArrayItemDate();
    PickAt(ArrayItem(), ArrayDateKeys, fallback, 0);
    ArrayItemOrderSum();
    PickAt(ArrayItem(), ArrayOrderSumKeys, Num(0.0), 0);
  }

  lemma ArrayItemRecord(eng: Engine)
    ensures ArrayRecord(eng, ArrayItem()) == ChartRecord("01.01.2024", Num(100.0), Num(0.0), Num(0.0))
  {
    ArrayItemPicks(TodayText(eng));
    ArrayItemVolume();
    ArrayItemSales();
    NewYear2024(eng);
  }

  /** One array element with a Russian date column and an order sum. */
  lemma ArrayExample(eng: Engine, raw: Value)
    requires raw == Arr([ArrayItem()])
    ensures ProcessData(eng, raw) == [ChartRecord("01.01.2024", Num(100.0), Num(0.0), Num(0.0))]
  {
    SingleItemPayload(eng, ArrayItem());
    ArrayItemRecord(eng);
  }

  /** The object `{"sum": 50, "volume": 10}`. */
  function EntryValue(): Value {
    Obj([("sum", Num(50.0)), ("volume", Num(10.0))])
  }

  lemma EntryValueDate()
    ensures EmbeddedDate("01012024", EntryValue()) == Str("01012024")
  {
    NoAliasPresent(EntryValue(), EntryDateKeys, Str("01012024"));
  }

  lemma EntryValueNoOrderSum()
    ensures forall i :: 0 <= i < 3 ==> Get(EntryValue(), EntryOrderSumKeys[i]) == Undefined
  {
    KeyAbsent(EntryValue(), EntryOrderSumKeys[0]);
    KeyAbsent(EntryValue(), EntryOrderSumKeys[1]);
    KeyAbsent(EntryValue(), EntryOrderSumKeys[2]);
  }

  lemma EntryValueSum()
    ensures Get(EntryValue(), EntryOrderSumKeys[3]) == Num(50.0)
  {
  }

  lemma EntryValueVolume()
    ensures Get(EntryValue(), EntryVolumeKeys[0]) == Num(10.0)
  {
  }

  lemma EntryValueSales()
    ensures Pick(EntryValue(), EntrySalesKeys, Num(0.0)) == Num(0.0)
  {
    NoAliasPresent(EntryValue(), EntrySalesKeys, Num(0.0));
  }

  lemma EntryValuePicks()
    ensures Pick(EntryValue(), EntryOrderSumKeys, Num(0.0)) == Num(50.0)
    ensures Pick(EntryValue(), EntryVolumeKeys, Num(0.0)) == Num(10.0)
  {
    EntryValueNoOrderSum();
    EntryValueSum();
    PickAt(EntryValue(), EntryOrderSumKeys, Num(0.0), 3);
    EntryValueVolume();
    PickAt(EntryValue(), EntryVolumeKeys, Num(0.0), 0);
  }

  lemma EntryValueRecord(eng: Engine)
    ensures EntryRecord(eng, "01012024", EntryValue()) == ChartRecord("01.01.2024", Num(50.0), Num(10.0), Num(0.0))
  {
    EntryValueDate();
    EntryValuePicks();
    EntryValueSales();
    NewYear2024(eng);
  }

  /** One entry keyed by its date, with a sum and a volume. */
  lemma ObjectExample(eng: Engine, raw: Value)
    requires raw == Obj([("01012024", EntryValue())])
    ensures ProcessData(eng, raw) == [ChartRecord("01.01.2024", Num(50.0), Num(10.0), Num(0.0))]
  {
    SingleEntryPayload(eng, "01012024", EntryValue());
    EntryValueRecord(eng);
  }

  /** The object `{"Сумма заказа": 0, "sum": 5}`. */
  function ZeroItem(): Value {
    Obj([("Сумма заказа", Num(0.0)), ("sum", Num(5.0))])
  }

  lemma ZeroItemArrayKeys()
    ensures Get(ZeroItem(), ArrayOrderSumKeys[0]) == Num(0.0)
    ensures Get(ZeroItem(), ArrayOrderSumKeys[3]) == Num(5.0)
  {
  }

  lemma ZeroItemArrayAbsent()
    ensures Get(ZeroItem(), ArrayOrderSumKeys[1]) == Undefined
    ensures Get(ZeroItem(), ArrayOrderSumKeys[2]) == Undefined
  {
    KeyAbsent(ZeroItem(), ArrayOrderSumKeys[1]);
    KeyAbsent(ZeroItem(), ArrayOrderSumKeys[2]);
  }

  lemma ZeroItemEntryKeys()
    ensures Get(ZeroItem(), EntryOrderSumKeys[2]) == Num(0.0)
    ensures Get(ZeroItem(), EntryOrderSumKeys[3]) == Num(5.0)
  {
  }

  lemma ZeroItemEntryAbsent()
    ensures Get(ZeroItem(), EntryOrderSumKeys[0]) == Undefined
    ensures Get(ZeroItem(), EntryOrderSumKeys[1]) == Undefined
  {
    KeyAbsent(ZeroItem(), EntryOrderSumKeys[0]);
    KeyAbsent(ZeroItem(), EntryOrderSumKeys[1]);
  }

  /** A zero under the first alias falls through to `sum`, in both payload
      shapes. */
  lemma ZeroFallsThrough(item: Value)
    requires item == ZeroItem()
    ensures Pick(item, ArrayOrderSumKeys, Num(0.0)) == Num(5.0)
    ensures Pick(item, EntryOrderSumKeys, Num(0.0)) == Num(5.0)
  {
    ZeroItemArrayPick();
    ZeroItemEntryPick();
  }

  lemma ZeroItemArrayPick()
    ensures Pick(ZeroItem(), ArrayOrderSumKeys, Num(0.0)) == Num(5.0)
  {
    ZeroItemArrayKeys();
    ZeroItemArrayAbsent();
    PickAt(ZeroItem(), ArrayOrderSumKeys, Num(0.0), 3);
  }

  lemma ZeroItemEntryPick()
    ensures Pick(ZeroItem(), EntryOrderSumKeys, Num(0.0)) == Num(5.0)
  {
    ZeroItemEntryKeys();
    ZeroItemEntryAbsent();
    PickAt(ZeroItem(), EntryOrderSumKeys, Num(0.0), 3);
  }

  /** The object `{"Сумма заказа": 1, "orderSum": 2}`. */
  function BothSumsItem(): Value {
    Obj([("Сумма заказа", Num(1.0)), ("orderSum", Num(2.0))])
  }

  lemma BothSumsKeys()
    ensures Get(BothSumsItem(), ArrayOrderSumKeys[0]) == Num(1.0)
    ensures Get(BothSumsItem(), EntryOrderSumKeys[0]) == Num(2.0)
  {
  }

  /** The two payload shapes rank the order-sum aliases differently. */
  lemma AliasOrderDiffers(item: Value)
    requires item == BothSumsItem()
    ensures Pick(item, ArrayOrderSumKeys, Num(0.0)) == Num(1.0)
    ensures Pick(item, EntryOrderSumKeys, Num(0.0)) == Num(2.0)
  {
    BothSumsKeys();
    PickAt(item, ArrayOrderSumKeys, Num(0.0), 0);
    PickAt(item, EntryOrderSumKeys, Num(0.0), 0);
  }

  /** The object `{"day": "01012024"}`. */
  function DayItem(): Value {
    Obj([("day", Str("01012024"))])
  }

  lemma DayItemAbsent()
    ensures forall i :: 0 <= i < 5 ==> Get(DayItem(), ArrayDateKeys[i]) == Undefined
  {
    KeyAbsent(DayItem(), ArrayDateKeys[0]);
    KeyAbsent(DayItem(), ArrayDateKeys[1]);
    KeyAbsent(DayItem(), ArrayDateKeys[2]);
    KeyAbsent(DayItem(), ArrayDateKeys[3]);
    KeyAbsent(DayItem(), ArrayDateKeys[4]);
  }

  lemma DayItemDay()
    ensures Get(DayItem(), ArrayDateKeys[5]) == Str("01012024")
  {
  }

  lemma DayItemEntryDate()
    ensures EmbeddedDate("29022024", DayItem()) == Str("29022024")
  {
    NoAliasPresent(DayItem(), EntryDateKeys, Str("29022024"));
  }

  /** A `day` field dates an array element but not an object entry. */
  lemma DayKeyOnlyInArrays(eng: Engine, item: Value)
    requires item == DayItem()
    ensures ArrayRecord(eng, item).date == "01.01.2024"
    ensures EntryRecord(eng, "29022024", item).date == "29.02.2024"
  {
    DayItemAbsent();
    DayItemDay();
    PickAt(item, ArrayDateKeys, TodayText(eng), 5);
    DayItemEntryDate();
    NewYear2024(eng);
    LeapDay2024(eng);
  }
}
