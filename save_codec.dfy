/**
 * The save codec of services/saveService.ts. Export is JSON, then percent-encoding
 * (section 2.1 of RFC 3986), then an XOR with the key "COSMIC_ENTROPY_KEY" cycled over the
 * text, then Base64 (section 4 of RFC 4648); import runs the same steps backwards and checks
 * the structure. Strings are sequences of UTF-16 code units. The browser's encoders, decoders
 * and JSON are parameters; each returns `None` where the browser throws.
 */
module SaveCodec {
  import opened Wrappers
  import opened GameTypes
  import opened Reducer
  import opened ReducerProperties

  type Text = seq<bv16>

  /** The character codes of "COSMIC_ENTROPY_KEY". */
  const SecretKey: Text := [67, 79, 83, 77, 73, 67, 95, 69, 78, 84, 82, 79, 80, 89, 95, 75, 69, 89]

  /** Every code unit is below 128. */
  predicate Ascii(t: Text) {
    forall i :: 0 <= i < |t| ==> t[i] < 128
  }

  /** Every code unit is below 256, what `btoa` accepts. */
  predicate Latin1(t: Text) {
    forall i :: 0 <= i < |t| ==> t[i] < 256
  }

  lemma KeyIsAscii()
    ensures |SecretKey| == 18 && Ascii(SecretKey)
  {
  }

  /** Each code unit XORed with the key's code unit at the same position modulo the key length. */
  function XorWithKey(t: Text): (r: Text)
    ensures |r| == |t|
    ensures forall i :: 0 <= i < |t| ==> r[i] ^ SecretKey[i % |SecretKey|] == t[i]
  {
    seq(|t|, i requires 0 <= i < |t| => t[i] ^ SecretKey[i % |SecretKey|])
  }

  /** The XOR step undoes itself. */
  lemma XorInvolution(t: Text)
    ensures XorWithKey(XorWithKey(t)) == t
  {
  }

  lemma AsciiXor(x: bv16, k: bv16)
    requires x < 128 && k < 128
    ensures x ^ k < 128
  {
  }

  /** An ASCII text stays ASCII under the XOR step, so it is within what `btoa` accepts. */
  lemma XorKeepsAscii(t: Text)
    requires Ascii(t)
    ensures Ascii(XorWithKey(t)) && Latin1(XorWithKey(t))
  {
    KeyIsAscii();
    var r := XorWithKey(t);
    forall i | 0 <= i < |t|
      ensures r[i] < 128
    {
      AsciiXor(t[i], SecretKey[i % |SecretKey|]);
      assert r[i] == t[i] ^ SecretKey[i % |SecretKey|];
    }
  }

  /** `encodeURIComponent`, `decodeURIComponent`, `btoa` and `atob`; `None` where they throw. */
  datatype TextCodecs = TextCodecs(
    uriEncode: Text -> Option<Text>,
    uriDecode: Text -> Option<Text>,
    toBase64: Text -> Option<Text>,
    fromBase64: Text -> Option<Text>)

  /** What the standards promise of the four: each decoder inverts its encoder. */
  ghost predicate RoundTrips(c: TextCodecs) {
    (forall t: Text :: c.uriEncode(t).Some? ==> c.uriDecode(c.uriEncode(t).value) == Some(t)) &&
    (forall t: Text :: c.toBase64(t).Some? ==> c.fromBase64(c.toBase64(t).value) == Some(t))
  }

  /** Percent-encoding yields ASCII, and Base64 encoding accepts every code unit below 256. */
  ghost predicate Alphabets(c: TextCodecs) {
    (forall t: Text :: c.uriEncode(t).Some? ==> Ascii(c.uriEncode(t).value)) &&
    (forall t: Text :: Latin1(t) ==> c.toBase64(t).Some?)
  }

  /** `obfuscate`: URI-encode, XOR, Base64; the empty text when a step throws. */
  function Obfuscate(c: TextCodecs, json: Text): (r: Text)
    ensures c.uriEncode(json).None? ==> r == []
    ensures c.uriEncode(json).Some? && c.toBase64(XorWithKey(c.uriEncode(json).value)).None? ==> r == []
  {
    match c.uriEncode(json)
    case None => []
    case Some(u) =>
      match c.toBase64(XorWithKey(u))
      case None => []
      case Some(b) => b
  }

  /** `deobfuscate`: Base64-decode, XOR, URI-decode; the empty text when a step throws. */
  function Deobfuscate(c: TextCodecs, encoded: Text): (r: Text)
    ensures c.fromBase64(encoded).None? ==> r == []
    ensures c.fromBase64(encoded).Some? && c.uriDecode(XorWithKey(c.fromBase64(encoded).value)).None? ==> r == []
  {
    match c.fromBase64(encoded)
    case None => []
    case Some(x) =>
      match c.uriDecode(XorWithKey(x))
      case None => []
      case Some(t) => t
  }

  /**
   * Deobfuscation inverts obfuscation for every text the URI encoder accepts: the encoded text
   * is ASCII, so after the XOR it is still within what Base64 accepts, and the XOR undoes itself.
   */
  lemma DeobfuscateInvertsObfuscate(c: TextCodecs, json: Text)
    requires RoundTrips(c) && Alphabets(c)
    requires c.uriEncode(json).Some?
    ensures Deobfuscate(c, Obfuscate(c, json)) == json
  {
    var u := c.uriEncode(json).value;
    XorKeepsAscii(u);
    var b := c.toBase64(XorWithKey(u)).value;
    assert c.fromBase64(b) == Some(XorWithKey(u));
    XorInvolution(u);
    assert c.uriDecode(u) == Some(json);
  }

  /** The single error import reports, whatever went wrong. */
  datatype ImportError = InvalidOrCorrupt

  /**
   * `importSaveString`: deobfuscate, parse, and require `resources` and `buildings`; an empty
   * decoding, a parse failure or a missing field all give the one error.
   */
  function ImportSaveString(c: TextCodecs, parse: Text -> Option<Snapshot>, encoded: Text): (r: Result<Snapshot, ImportError>)
    ensures r.Ok? <==>
      Deobfuscate(c, encoded) != [] && parse(Deobfuscate(c, encoded)).Some? &&
      parse(Deobfuscate(c, encoded)).value.resources.Some? && parse(Deobfuscate(c, encoded)).value.buildings.Some?
    ensures r.Ok? ==> Some(r.value) == parse(Deobfuscate(c, encoded))
  {
    var json := Deobfuscate(c, encoded);
    if json == [] then Err(InvalidOrCorrupt)
    else
      match parse(json)
      case None => Err(InvalidOrCorrupt)
      case Some(state) =>
        if state.resources.None? || state.buildings.None? then Err(InvalidOrCorrupt)
        else Ok(state)
  }

  /** `exportSaveString`: the obfuscated JSON of the state. */
  function ExportSaveString(c: TextCodecs, stringify: GameState -> Text, s: GameState): Text {
    Obfuscate(c, stringify(s))
  }

  /** What JSON promises: a non-empty serialisation that parses back to the full snapshot. */
  predicate JsonRoundTrips(stringify: GameState -> Text, parse: Text -> Option<Snapshot>, s: GameState) {
    stringify(s) != [] && parse(stringify(s)) == Some(SnapshotOf(s))
  }

  /** An exported save imports as the snapshot of the state it was made from. */
  lemma ExportThenImport(c: TextCodecs, stringify: GameState -> Text, parse: Text -> Option<Snapshot>, s: GameState)
    requires RoundTrips(c) && Alphabets(c) && JsonRoundTrips(stringify, parse, s)
    requires c.uriEncode(stringify(s)).Some?
    ensures ImportSaveString(c, parse, ExportSaveString(c, stringify, s)) == Ok(SnapshotOf(s))
  {
    DeobfuscateInvertsObfuscate(c, stringify(s));
  }

  /** Exporting, importing and loading gives the same state back, under the load round trip's conditions. */
  lemma ExportImportLoad(c: TextCodecs, stringify: GameState -> Text, parse: Text -> Option<Snapshot>, s: GameState)
    requires RoundTrips(c) && Alphabets(c) && JsonRoundTrips(stringify, parse, s)
    requires c.uriEncode(stringify(s)).Some?
    requires CatalogueShaped(s.achievements)
    requires forall i :: 0 <= i < |s.buildings| ==> !s.buildings[i].justUnlocked
    ensures var r := ImportSaveString(c, parse, ExportSaveString(c, stringify, s));
      r.Ok? && LoadGameStep(r.value) == s
  {
    ExportThenImport(c, stringify, parse, s);
    LoadRoundTrip(s);
  }

  /** `loadFromLocal`: nothing stored, an empty entry or a parse failure gives no snapshot. */
  function LoadFromLocal(stored: Option<Text>, parse: Text -> Option<Snapshot>): (r: Option<Snapshot>)
    ensures stored.None? || stored == Some([]) ==> r.None?
    ensures stored.Some? && stored.value != [] ==> r == parse(stored.value)
  {
    match stored
    case None => None
    case Some(t) => if t == [] then None else parse(t)
  }

  /** `saveToLocal` stores the plain JSON; loading it back gives the snapshot of the saved state. */
  lemma LocalSaveRoundTrip(stringify: GameState -> Text, parse: Text -> Option<Snapshot>, s: GameState)
    requires JsonRoundTrips(stringify, parse, s)
    ensures LoadFromLocal(Some(stringify(s)), parse) == Some(SnapshotOf(s))
  {
  }
}
