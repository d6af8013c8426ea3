/**
 * The asset record: its constructor defaults, the hash taken from the sid,
 * the `str` and `repr` texts and the dictionary form.
 */
module Assets {
  import opened Wrappers
  import opened Strings

  /** The Python class of an asset, whose name `str` shows. */
  datatype AssetType = PlainAsset | EquityAsset

  function TypeName(t: AssetType): string
  {
    match t
    case PlainAsset => "Asset"
    case EquityAsset => "Equity"
  }

  /**
   * An asset. Text attributes may be `None`; dates are integer minutes and
   * may be `None`.
   */
  datatype Asset = Asset(
    assetType: AssetType,
    sid: string,
    sidHash: int,
    exchange: Option<string>,
    symbol: Option<string>,
    assetName: Option<string>,
    startDate: Option<int>,
    endDate: Option<int>,
    firstTraded: Option<int>,
    autoCloseDate: Option<int>,
    exchangeFull: Option<string>)

  /**
   * `Asset(sid, exchange, symbol, asset_name)`: the hash of the sid is taken
   * once, here, and the five other attributes start as `None`.
   */
  function NewAsset(t: AssetType, hash: string -> int, sid: string, exchange: Option<string>,
                    symbol: Option<string>, assetName: Option<string>): (a: Asset)
    ensures a.assetType == t && a.sid == sid && a.sidHash == hash(sid)
    ensures a.exchange == exchange && a.symbol == symbol && a.assetName == assetName
    ensures a.startDate.None? && a.endDate.None? && a.firstTraded.None? && a.autoCloseDate.None?
    ensures a.exchangeFull.None?
  {
    Asset(t, sid, hash(sid), exchange, symbol, assetName, None, None, None, None, None)
  }

  /** `__hash__` */
  function Hash(a: Asset): int
  {
    a.sidHash
  }

  /** Assets built with the same sid hash alike, whatever their other attributes. */
  lemma HashFollowsSid(t1: AssetType, t2: AssetType, hash: string -> int, sid: string,
                       e1: Option<string>, e2: Option<string>, s1: Option<string>, s2: Option<string>,
                       n1: Option<string>, n2: Option<string>)
    ensures Hash(NewAsset(t1, hash, sid, e1, s1, n1)) == Hash(NewAsset(t2, hash, sid, e2, s2, n2)) == hash(sid)
  {
  }

  /** Python's truth value of an optional text: present and non-empty. */
  predicate Truthy(v: Option<string>)
  {
    v.Some? && v.value != ""
  }

  /** `'{}'.format(v)` of an optional text. */
  function Show(v: Option<string>): (s: string)
    ensures v.Some? ==> s == v.value
    ensures v.None? ==> s == "None"
  {
    match v
    case None => "None"
    case Some(s) => s
  }

  /** `__str__`: `Type(sid [symbol])` when the symbol is truthy, else `Type(sid)`. */
  function Str(a: Asset): (s: string)
    ensures var head := TypeName(a.assetType) + "(" + a.sid;
      |s| > |head| && s[..|head|] == head && s[|s| - 1] == ')'
  {
    if Truthy(a.symbol) then TypeName(a.assetType) + "(" + a.sid + " [" + a.symbol.value + "])"
    else TypeName(a.assetType) + "(" + a.sid + ")"
  }

  /** The bracket appears in `str` exactly when the symbol is shown. */
  lemma StrShowsSymbol(a: Asset)
    requires '[' !in a.sid
    ensures '[' in Str(a) <==> Truthy(a.symbol)
    ensures Truthy(a.symbol) ==> Contains(Str(a), a.symbol.value)
  {
    var name := TypeName(a.assetType);
    if Truthy(a.symbol) {
      var sym := a.symbol.value;
      var s := name + "(" + a.sid + " [" + sym + "])";
      assert s[|name + "(" + a.sid + " "|] == '[';
      ContainsConcat(name + "(" + a.sid + " [", sym + "])", sym);
      assert StartsWith(sym + "])", sym);
      assert Contains(sym + "])", sym);
      assert name + "(" + a.sid + " [" + sym + "])" == (name + "(" + a.sid + " [") + (sym + "])");
    } else {
      var s := name + "(" + a.sid + ")";
      assert forall k :: 0 <= k < |s| ==> s[k] != '[' by {
        forall k | 0 <= k < |s|
          ensures s[k] != '['
        {
          if |name| + 1 <= k < |name| + 1 + |a.sid| {
            assert s[k] == a.sid[k - |name| - 1];
          }
        }
      }
    }
  }

  /** The `name=value` pairs of `repr`, in the order symbol, asset name, exchange. */
  function ReprParams(a: Asset): (ps: seq<string>)
    ensures |ps| <= 3
  {
    (if Truthy(a.symbol) then ["symbol=" + a.symbol.value] else [])
    + (if Truthy(a.assetName) then ["asset_name=" + a.assetName.value] else [])
    + (if Truthy(a.exchange) then ["exchange=" + a.exchange.value] else [])
  }

  /**
   * `__repr__`: `Asset(sid, ` followed by the present attributes joined by
   * commas and a closing parenthesis. It always reads `Asset`, whatever the
   * class, and keeps the comma even when no attribute is present. The
   * values are formatted with `{}`, so nothing is quoted or escaped.
   */
  function Repr(a: Asset): (s: string)
    ensures var head := "Asset(" + a.sid + ", ";
      |s| > |head| && s[..|head|] == head && s[|s| - 1] == ')'
  {
    "Asset(" + a.sid + ", " + Join(", ", ReprParams(a)) + ")"
  }

  /**
   * An attribute is listed exactly when it is neither `None` nor empty, and
   * the listed ones keep the order symbol, asset name, exchange.
   */
  lemma ReprListsPresent(a: Asset)
    ensures var ps := ReprParams(a);
      |ps| == (if Truthy(a.symbol) then 1 else 0) + (if Truthy(a.assetName) then 1 else 0)
              + (if Truthy(a.exchange) then 1 else 0)
      && (Truthy(a.symbol) ==> ps[0] == "symbol=" + a.symbol.value)
      && (Truthy(a.assetName) ==> ps[if Truthy(a.symbol) then 1 else 0] == "asset_name=" + a.assetName.value)
      && (Truthy(a.exchange) ==> ps[|ps| - 1] == "exchange=" + a.exchange.value)
  {
  }

  /** With no attribute to show, `repr` still writes the separator. */
  lemma ReprWithoutAttributes(a: Asset)
    requires !Truthy(a.symbol) && !Truthy(a.assetName) && !Truthy(a.exchange)
    ensures Repr(a) == "Asset(" + a.sid + ", )"
  {
  }

  /** The unit test's asset, shown by `repr` as the test expects. */
  lemma ReprOfTestAsset(hash: string -> int)
    ensures Repr(NewAsset(PlainAsset, hash, "asset-id", Some("NSDQ"), Some("AAPL"), Some("")))
      == "Asset(" + "asset-id" + ", " + ("symbol=" + "AAPL") + ", " + ("exchange=" + "NSDQ") + ")"
  {
    var a := NewAsset(PlainAsset, hash, "asset-id", Some("NSDQ"), Some("AAPL"), Some(""));
    var p1, p2 := "symbol=" + "AAPL", "exchange=" + "NSDQ";
    assert ReprParams(a) == [p1] + [p2];
    JoinSnoc(", ", [p1], p2);
  }

  /** The unit test's asset, shown by `str` as the test expects. */
  lemma StrOfTestAsset(hash: string -> int)
    ensures Str(NewAsset(PlainAsset, hash, "asset-id", Some("NSDQ"), Some("AAPL"), Some("")))
      == "Asset(asset-id [AAPL])"
  {
  }

  /** A value of the dictionary form. */
  datatype AssetValue = TextValue(text: Option<string>) | DateValue(date: Option<int>)

  /** `to_dict`: the nine attributes under their Python names. */
  function ToDict(a: Asset): (d: map<string, AssetValue>)
    ensures d.Keys == {"sid", "symbol", "asset_name", "start_date", "end_date", "first_traded",
                       "auto_close_date", "exchange", "exchange_full"}
    ensures d["sid"] == TextValue(Some(a.sid)) && d["symbol"] == TextValue(a.symbol)
    ensures d["asset_name"] == TextValue(a.assetName) && d["exchange"] == TextValue(a.exchange)
    ensures d["exchange_full"] == TextValue(a.exchangeFull)
    ensures d["start_date"] == DateValue(a.startDate) && d["end_date"] == DateValue(a.endDate)
    ensures d["first_traded"] == DateValue(a.firstTraded) && d["auto_close_date"] == DateValue(a.autoCloseDate)
  {
    map["sid" := TextValue(Some(a.sid)), "symbol" := TextValue(a.symbol),
        "asset_name" := TextValue(a.assetName), "start_date" := DateValue(a.startDate),
        "end_date" := DateValue(a.endDate), "first_traded" := DateValue(a.firstTraded),
        "auto_close_date" := DateValue(a.autoCloseDate), "exchange" := TextValue(a.exchange),
        "exchange_full" := TextValue(a.exchangeFull)]
  }

  /** The dictionary form loses only the class and the hash: equal dictionaries mean equal attributes. */
  lemma ToDictDetermines(a: Asset, b: Asset)
    requires ToDict(a) == ToDict(b)
    ensures a.(assetType := b.assetType, sidHash := b.sidHash) == b
  {
    assert ToDict(a)["sid"] == ToDict(b)["sid"];
  }
}
