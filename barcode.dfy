/** Barcodes of the `wms` tree: printing an item or bin barcode as a prefixed
    payload, optionally wrapped in brackets, and scanning a code back into an
    item SKU or a (location, bin) pair. The store is reduced to the sets of
    item SKUs, location codes and (location, bin) code pairs it holds. */
module Barcode {
  import opened Base
  import opened Text

  datatype Config = Config(format: String, itemPrefix: String, binPrefix: String)

  const FormatVar: String := "WMS_BARCODE_FORMAT"
  const ItemPrefixVar: String := "WMS_BARCODE_ITEM_PREFIX"
  const BinPrefixVar: String := "WMS_BARCODE_BIN_PREFIX"

  lemma DefaultsTrimmed()
    ensures IsTrimmed("ITEM:") && IsTrimmed("BIN:")
  {
    assert !IsSpace('I') && !IsSpace(':');
    assert !IsSpace('B');
  }

  /** The configuration read from the environment: each value trimmed, and an
      empty one replaced by its default. */
  function LoadConfig(env: Env): (c: Config)
    ensures TrimSpace(Getenv(env, FormatVar)) == [] ==> c.format == "plain"
    ensures TrimSpace(Getenv(env, FormatVar)) != [] ==> c.format == TrimSpace(Getenv(env, FormatVar))
    ensures TrimSpace(Getenv(env, ItemPrefixVar)) == [] ==> c.itemPrefix == "ITEM:"
    ensures TrimSpace(Getenv(env, ItemPrefixVar)) != [] ==> c.itemPrefix == TrimSpace(Getenv(env, ItemPrefixVar))
    ensures TrimSpace(Getenv(env, BinPrefixVar)) == [] ==> c.binPrefix == "BIN:"
    ensures TrimSpace(Getenv(env, BinPrefixVar)) != [] ==> c.binPrefix == TrimSpace(Getenv(env, BinPrefixVar))
  {
    var f := TrimSpace(Getenv(env, FormatVar));
    var ip := TrimSpace(Getenv(env, ItemPrefixVar));
    var bp := TrimSpace(Getenv(env, BinPrefixVar));
    Config(if f == [] then "plain" else f, if ip == [] then "ITEM:" else ip, if bp == [] then "BIN:" else bp)
  }

  /** Every loaded configuration has non-empty prefixes without white space at either end. */
  lemma LoadConfigWellFormed(env: Env)
    ensures WellFormed(LoadConfig(env))
  {
    var c := LoadConfig(env);
    DefaultsTrimmed();
    if TrimSpace(Getenv(env, ItemPrefixVar)) == [] {
      assert c.itemPrefix == "ITEM:";
    } else {
      assert c.itemPrefix == TrimSpace(Getenv(env, ItemPrefixVar));
    }
    if TrimSpace(Getenv(env, BinPrefixVar)) == [] {
      assert c.binPrefix == "BIN:";
    } else {
      assert c.binPrefix == TrimSpace(Getenv(env, BinPrefixVar));
    }
  }

  /** What every loaded configuration satisfies: non-empty prefixes without
      white space at either end. */
  predicate WellFormed(c: Config) {
    c.itemPrefix != [] && IsTrimmed(c.itemPrefix) && c.binPrefix != [] && IsTrimmed(c.binPrefix)
  }

  /** With nothing set in the environment the defaults apply. */
  lemma DefaultConfig()
    ensures LoadConfig(map[]) == Config("plain", "ITEM:", "BIN:")
  {
    assert AllSpace([]);
  }

  predicate Bracketed(c: Config) {
    ToLower(c.format) == "bracket"
  }

  /** A code that starts with "[" and ends with "]". */
  predicate Wrapped(s: String) {
    HasPrefix(s, "[") && HasSuffix(s, "]")
  }

  /** `encode`: "[p]" in bracket format (whatever the letter case), p itself otherwise. */
  function Encode(c: Config, payload: String): (code: String)
    ensures Bracketed(c) ==> code == ['['] + payload + [']']
    ensures !Bracketed(c) ==> code == payload
  {
    if Bracketed(c) then "[" + payload + "]" else payload
  }

  /** A format spelled with a Kelvin sign still selects brackets, as
      Go's Unicode lower-casing makes it "bracket". */
  lemma KelvinBracket(payload: String)
    ensures Encode(Config("BRAC\U{212A}ET", "ITEM:", "BIN:"), payload) == ['['] + payload + [']']
  {
    assert ToLower("BRAC\U{212A}ET") == "bracket";
  }

  /** `decode`: trims, then strips one "[" and one "]" when both ends carry them. */
  function Decode(code: String): (raw: String)
    ensures Wrapped(TrimSpace(code)) ==> ['['] + raw + [']'] == TrimSpace(code)
    ensures !Wrapped(TrimSpace(code)) ==> raw == TrimSpace(code)
  {
    Unwrap(TrimSpace(code))
  }

  /** One "[" and one "]" taken off a trimmed code that carries both. */
  function Unwrap(c: String): (raw: String)
    ensures Wrapped(c) ==> ['['] + raw + [']'] == c
    ensures !Wrapped(c) ==> raw == c
  {
    if Wrapped(c) then
      assert c[0] == '[' && c[|c| - 1] == ']';
      var t := TrimPrefix(c, "[");
      assert HasSuffix(t, "]") by {
        assert |c| >= 2 && t == c[1..];
        assert t[|t| - 1..] == c[|c| - 1..];
      }
      TrimSuffix(t, "]")
    else c
  }

  /** In bracket format every payload survives encoding and decoding. */
  lemma BracketRoundTrip(c: Config, p: String)
    requires Bracketed(c)
    ensures Decode(Encode(c, p)) == p
  {
    var code := Encode(c, p);
    TrimSpaceOfTrimmed(code);
    assert Wrapped(code);
    var raw := Decode(code);
    assert ['['] + raw + [']'] == ['['] + p + [']'];
    assert raw == (['['] + raw + [']'])[1..|raw| + 1];
    assert p == (['['] + p + [']'])[1..|p| + 1];
  }

  /** In plain format a payload survives exactly when it is already trimmed
      and not wrapped in brackets. */
  lemma PlainRoundTrip(c: Config, p: String)
    requires !Bracketed(c)
    ensures Decode(Encode(c, p)) == p <==> IsTrimmed(p) && !Wrapped(p)
  {
    if IsTrimmed(p) && !Wrapped(p) {
      TrimSpaceOfTrimmed(p);
    }
    if Decode(p) == p {
      var t := TrimSpace(p);
      assert |t| <= |p|;
      assert !Wrapped(t);
      assert t == p;
    }
  }

  datatype Kind = ItemCode | BinCode | UnknownCode

  /** `ScanResult`; fields that do not apply to the kind stay empty. */
  datatype ScanResult = ScanResult(kind: Kind, sku: String, location: String, bin: String, existsInDB: bool)

  datatype ScanError = EmptyCode | InvalidItemBarcode | InvalidBinBarcode

  /** The two trimmed, non-empty halves of a "location|bin" payload. */
  function BinPayload(payload: String): (r: Option<(String, String)>)
    ensures r.Some? <==>
      |Split(TrimSpace(payload), '|')| == 2
      && TrimSpace(Split(TrimSpace(payload), '|')[0]) != []
      && TrimSpace(Split(TrimSpace(payload), '|')[1]) != []
    ensures r.Some? ==>
      r.value == (TrimSpace(Split(TrimSpace(payload), '|')[0]), TrimSpace(Split(TrimSpace(payload), '|')[1]))
  {
    var parts := Split(TrimSpace(payload), '|');
    if |parts| != 2 then None
    else
      var l := TrimSpace(parts[0]);
      var b := TrimSpace(parts[1]);
      if l == [] || b == [] then None else Some((l, b))
  }

  /** `Scan`: the item prefix is tried before the bin prefix; a code with
      neither is UNKNOWN. An item exists when its SKU is stored; a bin when its
      location is stored and holds a bin with that code. */
  function Scan(c: Config, items: set<String>, locations: set<String>, bins: set<(String, String)>, code: String)
    : (r: Result<ScanResult, ScanError>)
    ensures r == Err(EmptyCode) <==> TrimSpace(code) == []
    ensures TrimSpace(code) != [] && HasPrefix(Decode(code), c.itemPrefix) ==>
      (r == Err(InvalidItemBarcode) <==> TrimSpace(TrimPrefix(Decode(code), c.itemPrefix)) == [])
    ensures r.Ok? && r.value.kind == ItemCode ==>
      HasPrefix(Decode(code), c.itemPrefix)
      && r.value.sku == TrimSpace(TrimPrefix(Decode(code), c.itemPrefix)) != []
      && (r.value.existsInDB <==> r.value.sku in items)
    ensures TrimSpace(code) != [] && !HasPrefix(Decode(code), c.itemPrefix) && HasPrefix(Decode(code), c.binPrefix) ==>
      (r == Err(InvalidBinBarcode) <==> BinPayload(TrimPrefix(Decode(code), c.binPrefix)).None?)
    ensures r.Ok? && r.value.kind == BinCode ==>
      !HasPrefix(Decode(code), c.itemPrefix) && HasPrefix(Decode(code), c.binPrefix)
      && BinPayload(TrimPrefix(Decode(code), c.binPrefix)) == Some((r.value.location, r.value.bin))
      && (r.value.existsInDB <==> r.value.location in locations && (r.value.location, r.value.bin) in bins)
    ensures r.Ok? && r.value.kind == UnknownCode <==>
      TrimSpace(code) != [] && !HasPrefix(Decode(code), c.itemPrefix) && !HasPrefix(Decode(code), c.binPrefix)
    ensures r.Ok? && r.value.kind == UnknownCode ==> r.value == ScanResult(UnknownCode, [], [], [], false)
  {
    if TrimSpace(code) == [] then Err(EmptyCode)
    else
      var raw := Decode(code);
      if HasPrefix(raw, c.itemPrefix) then
        var sku := TrimSpace(TrimPrefix(raw, c.itemPrefix));
        if sku == [] then Err(InvalidItemBarcode)
        else Ok(ScanResult(ItemCode, sku, [], [], sku in items))
      else if HasPrefix(raw, c.binPrefix) then
        match BinPayload(TrimPrefix(raw, c.binPrefix))
        case None => Err(InvalidBinBarcode)
        case Some((l, b)) =>
          if l !in locations then Ok(ScanResult(BinCode, [], l, b, false))
          else Ok(ScanResult(BinCode, [], l, b, (l, b) in bins))
      else Ok(ScanResult(UnknownCode, [], [], [], false))
  }

  datatype PrintError = InvalidSKU | ItemNotFound | InvalidLocationCode | InvalidBinCode | LocationNotFound | BinNotFound

  /** `PrintItemBarcode`: the encoded item prefix and trimmed SKU of a stored item. */
  function PrintItemBarcode(c: Config, items: set<String>, sku: String): (r: Result<String, PrintError>)
    ensures r == Err(InvalidSKU) <==> TrimSpace(sku) == []
    ensures r == Err(ItemNotFound) <==> TrimSpace(sku) != [] && TrimSpace(sku) !in items
    ensures r.Ok? <==> TrimSpace(sku) != [] && TrimSpace(sku) in items
    ensures r.Ok? ==> r.value == Encode(c, c.itemPrefix + TrimSpace(sku))
  {
    var s := TrimSpace(sku);
    if s == [] then Err(InvalidSKU)
    else if s !in items then Err(ItemNotFound)
    else Ok(Encode(c, c.itemPrefix + s))
  }

  /** `PrintBinBarcode`: the encoded bin prefix and "location|bin" payload of a stored bin. */
  function PrintBinBarcode(c: Config, locations: set<String>, bins: set<(String, String)>, locCode: String, binCode: String)
    : (r: Result<String, PrintError>)
    ensures r == Err(InvalidLocationCode) <==> TrimSpace(locCode) == []
    ensures TrimSpace(locCode) != [] ==> (r == Err(InvalidBinCode) <==> TrimSpace(binCode) == [])
    ensures r.Ok? <==>
      TrimSpace(locCode) != [] && TrimSpace(binCode) != [] && TrimSpace(locCode) in locations
      && (TrimSpace(locCode), TrimSpace(binCode)) in bins
    ensures r.Ok? ==> r.value == Encode(c, c.binPrefix + TrimSpace(locCode) + "|" + TrimSpace(binCode))
  {
    var l := TrimSpace(locCode);
    var b := TrimSpace(binCode);
    if l == [] then Err(InvalidLocationCode)
    else if b == [] then Err(InvalidBinCode)
    else if l !in locations then Err(LocationNotFound)
    else if (l, b) !in bins then Err(BinNotFound)
    else Ok(Encode(c, c.binPrefix + l + "|" + b))
  }

  /** Two prefixes that are not prefixes of one another cannot both start a string. */
  lemma PrefixesExclusive(p: String, q: String, rest: String)
    requires !HasPrefix(p, q) && !HasPrefix(q, p)
    ensures !HasPrefix(p + rest, q)
  {
    if |q| <= |p + rest| {
      if |q| <= |p| {
        assert (p + rest)[..|q|] == p[..|q|];
      } else {
        assert (p + rest)[..|q|][..|p|] == p;
      }
    }
  }

  /** A trimmed, non-empty head glued to a string with a non-space last character is trimmed. */
  lemma ConcatTrimmed(a: String, b: String)
    requires a != [] && IsTrimmed(a)
    requires b != [] && IsTrimmed(b)
    ensures IsTrimmed(a + b)
  {
    assert (a + b)[0] == a[0];
    assert (a + b)[|a + b| - 1] == b[|b| - 1];
  }

  /** Decoding what was encoded gives the payload back, when the format brackets
      it or the payload is trimmed and not itself wrapped. */
  lemma DecodeEncoded(c: Config, p: String)
    requires Bracketed(c) || (IsTrimmed(p) && !Wrapped(p))
    ensures Decode(Encode(c, p)) == p
  {
    if Bracketed(c) {
      BracketRoundTrip(c, p);
    } else {
      PlainRoundTrip(c, p);
    }
  }

  /** A code whose decoded form is the item prefix and a trimmed SKU scans as that item. */
  lemma ScanItemPayload(c: Config, items: set<String>, locations: set<String>, bins: set<(String, String)>,
                        code: String, sku: String)
    requires sku != [] && IsTrimmed(sku)
    requires Decode(code) == c.itemPrefix + sku
    ensures Scan(c, items, locations, bins, code) == Ok(ScanResult(ItemCode, sku, [], [], sku in items))
  {
    var raw := Decode(code);
    assert TrimSpace(code) != [];
    assert HasPrefix(raw, c.itemPrefix);
    assert TrimPrefix(raw, c.itemPrefix) == sku;
    TrimSpaceOfTrimmed(sku);
  }

  lemma JoinedTrimmed(l: String, b: String)
    requires l != [] && IsTrimmed(l) && b != [] && IsTrimmed(b)
    ensures IsTrimmed(l + "|" + b)
  {
    var payload := l + "|" + b;
    assert payload[0] == l[0];
    assert payload[|payload| - 1] == b[|b| - 1];
  }

  /** "l|b" splits back into l and b when both are trimmed, non-empty and free of "|". */
  lemma BinPayloadOf(l: String, b: String)
    requires l != [] && IsTrimmed(l) && b != [] && IsTrimmed(b)
    requires '|' !in l && '|' !in b
    ensures BinPayload(l + "|" + b) == Some((l, b))
  {
    JoinedTrimmed(l, b);
    TrimSpaceOfTrimmed(l + "|" + b);
    SplitTwo(l, b, '|');
    TrimSpaceOfTrimmed(l);
    TrimSpaceOfTrimmed(b);
  }

  /** A code whose decoded form is the bin prefix and a valid payload, and that
      does not start with the item prefix, scans as that bin. */
  lemma ScanBinPayload(c: Config, items: set<String>, locations: set<String>, bins: set<(String, String)>,
                       code: String, payload: String, l: String, b: String)
    requires Decode(code) == c.binPrefix + payload
    requires !HasPrefix(Decode(code), c.itemPrefix)
    requires BinPayload(payload) == Some((l, b))
    ensures Scan(c, items, locations, bins, code)
      == Ok(ScanResult(BinCode, [], l, b, l in locations && (l, b) in bins))
  {
    var raw := Decode(code);
    assert TrimSpace(code) != [] by {
      assert |raw| > 0 by { assert payload != []; }
    }
    assert HasPrefix(raw, c.binPrefix);
    assert TrimPrefix(raw, c.binPrefix) == payload;
  }

  /** Scanning a printed item barcode yields that item, found in the store. */
  lemma ScanPrintedItem(c: Config, items: set<String>, locations: set<String>, bins: set<(String, String)>, sku: String)
    requires WellFormed(c)
    requires PrintItemBarcode(c, items, sku).Ok?
    requires Bracketed(c) || !Wrapped(c.itemPrefix + TrimSpace(sku))
    ensures Scan(c, items, locations, bins, PrintItemBarcode(c, items, sku).value)
      == Ok(ScanResult(ItemCode, TrimSpace(sku), [], [], true))
  {
    var s := TrimSpace(sku);
    var p := c.itemPrefix + s;
    var code := PrintItemBarcode(c, items, sku).value;
    assert code == Encode(c, p) && s != [] && s in items;
    ConcatTrimmed(c.itemPrefix, s);
    DecodeEncoded(c, p);
    ScanItemPayload(c, items, locations, bins, code, s);
  }

  lemma PayloadAssoc(prefix: String, l: String, b: String)
    ensures prefix + l + "|" + b == prefix + (l + "|" + b)
  {
  }

  /** Scanning a printed bin barcode yields that location and bin, found in the
      store, provided neither code holds "|" and neither prefix starts the other. */
  lemma ScanPrintedBin(c: Config, items: set<String>, locations: set<String>, bins: set<(String, String)>,
                       locCode: String, binCode: String)
    requires WellFormed(c)
    requires !HasPrefix(c.binPrefix, c.itemPrefix) && !HasPrefix(c.itemPrefix, c.binPrefix)
    requires PrintBinBarcode(c, locations, bins, locCode, binCode).Ok?
    requires '|' !in TrimSpace(locCode) && '|' !in TrimSpace(binCode)
    requires Bracketed(c) || !Wrapped(c.binPrefix + TrimSpace(locCode) + "|" + TrimSpace(binCode))
    ensures Scan(c, items, locations, bins, PrintBinBarcode(c, locations, bins, locCode, binCode).value)
      == Ok(ScanResult(BinCode, [], TrimSpace(locCode), TrimSpace(binCode), true))
  {
    var l := TrimSpace(locCode);
    var b := TrimSpace(binCode);
    var payload := l + "|" + b;
    var p := c.binPrefix + payload;
    PayloadAssoc(c.binPrefix, l, b);
    JoinedTrimmed(l, b);
    ConcatTrimmed(c.binPrefix, payload);
    DecodeEncoded(c, p);
    PrefixesExclusive(c.binPrefix, c.itemPrefix, payload);
    BinPayloadOf(l, b);
    ScanBinPayload(c, items, locations, bins, Encode(c, p), payload, l, b);
  }
}
