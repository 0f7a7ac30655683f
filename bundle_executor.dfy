/** Bundle construction and relay submission, as `execute/bundleExecutor.js`
    does them. The chain (block number, nonce, gas estimates), the wallet's
    signatures, Keccak-256, `JSON.stringify` and the HTTP exchange are oracles;
    the arithmetic, the bundle and envelope shapes, the request-id counter and
    the order in which the shared transaction options are filled in are
    modelled exactly. */
module BundleExecutor {
  import opened Wrappers
  import Hex
  import opened Json

  type Address = string

  // ---------------------------------------------------------------------------
  // Gas headroom

  datatype GasCost = GasCost(gasPrice: nat, gasLimit: nat)

  /** The arithmetic of `estimateGasCost`: ten percent more gas and twenty
      percent more gas price than estimated, rounded down as BigNumber `div`
      does for non-negative values. */
  function EstimateGasCost(gasEstimate: nat, gasPriceEstimate: nat): (r: GasCost)
    ensures gasEstimate <= r.gasLimit && gasPriceEstimate <= r.gasPrice
    // gasLimit is the floor of 1.1 times the estimate
    ensures r.gasLimit * 10 <= gasEstimate * 11 < r.gasLimit * 10 + 10
    // gasPrice is the floor of 1.2 times the estimate
    ensures r.gasPrice * 5 <= gasPriceEstimate * 6 < r.gasPrice * 5 + 5
  {
    GasCost(gasPriceEstimate + gasPriceEstimate / 5, gasEstimate + gasEstimate / 10)
  }

  // ---------------------------------------------------------------------------
  // Bundles

  /** A body entry: a reference to someone else's transaction by hash, or a
      signed transaction of the bot's own. */
  datatype BodyEntry = Reference(hash: string) | OwnTx(tx: string, canRevert: bool)

  datatype Inclusion = Inclusion(block: string, maxBlock: string)

  datatype Bundle = Bundle(version: string, inclusion: Inclusion, body: seq<BodyEntry>)

  /** The only bundle format version the relay accepts. */
  const BundleVersion := "beta-1"

  /** How many blocks past the first the relay keeps trying to include a bundle. */
  const BlocksToTry: nat := 10

  /** `bundleWithParams(blockNumber, blocksToTry, body)`. */
  function BundleWithParams(blockNumber: nat, blocksToTry: nat, body: seq<BodyEntry>): (b: Bundle)
    ensures b.version == BundleVersion && b.body == body
    ensures Hex.ParseHexValue(b.inclusion.block) == Some(blockNumber)
    ensures Hex.ParseHexValue(b.inclusion.maxBlock) == Some(blockNumber + blocksToTry)
    // both ends are written in hexValue's canonical form
    ensures Hex.IsQuantity(b.inclusion.block) && Hex.IsQuantity(b.inclusion.maxBlock)
    ensures b.inclusion.block == Hex.HexValue(blockNumber)
    ensures b.inclusion.maxBlock == Hex.HexValue(blockNumber + blocksToTry)
  {
    Hex.HexValueRoundTrip(blockNumber);
    Hex.HexValueRoundTrip(blockNumber + blocksToTry);
    Bundle(BundleVersion, Inclusion(Hex.HexValue(blockNumber), Hex.HexValue(blockNumber + blocksToTry)), body)
  }

  /** The window's two ends decode to numbers exactly `blocksToTry` apart. */
  lemma WindowSpan(blockNumber: nat, blocksToTry: nat, body: seq<BodyEntry>)
    ensures var b := BundleWithParams(blockNumber, blocksToTry, body);
      && Hex.ParseHexValue(b.inclusion.block).Some?
      && Hex.ParseHexValue(b.inclusion.maxBlock).Some?
      && Hex.ParseHexValue(b.inclusion.maxBlock).value - Hex.ParseHexValue(b.inclusion.block).value == blocksToTry
  {
  }

  /** A backrun body: the target's hash first, then the bot's own transaction,
      which the relay must not let revert. */
  predicate IsBackrunBody(body: seq<BodyEntry>, txHash: string) {
    |body| == 2 && body[0] == Reference(txHash) && body[1].OwnTx? && !body[1].canRevert
  }

  // ---------------------------------------------------------------------------
  // The transactions and the collaborators that produce them

  /** The overrides object shared by both `populateTransaction` calls, as it
      stands at the moment of each call. */
  datatype TxOptions = TxOptions(nonce: nat, gasPrice: Option<nat>, gasLimit: Option<nat>)

  /** A call of `executeArbitrage(firstPair, secondPair, percentageToKeep)` on
      the bot's contract, populated with the overrides current at that time. */
  datatype PopulatedTx = PopulatedTx(
    to: Address, firstPair: Address, secondPair: Address, percentageToKeep: int, overrides: TxOptions)

  /** The signing identity: its address and its two signature operations. */
  datatype Wallet = Wallet(
    address: Address,
    signMessage: string -> string,
    signTransaction: PopulatedTx -> string)

  /** The provider's answers during one `buildBundles` call. */
  datatype Provider = Provider(
    blockNumber: nat,
    transactionCount: nat,
    gasPrice: nat,
    estimateGas: PopulatedTx -> nat)

  /** Everything one `buildBundles` call produces. */
  datatype BuiltBundles = BuiltBundles(
    txOne: PopulatedTx, txTwo: PopulatedTx, bundleOne: Bundle, bundleTwo: Bundle)

  /** What `buildBundles` computes, as a value. Bundle one's transaction is
      populated before the gas fields are put into the shared options, bundle
      two's after. */
  function BuildSpec(contract: Address, percentageToKeep: int, wallet: Wallet, provider: Provider,
                     firstPair: Address, secondPair: Address, txHash: string): BuiltBundles
  {
    var options := TxOptions(provider.transactionCount, None, None);
    var txOne := PopulatedTx(contract, firstPair, secondPair, percentageToKeep, options);
    var gas := EstimateGasCost(provider.estimateGas(txOne), provider.gasPrice);
    var withGas := options.(gasPrice := Some(gas.gasPrice), gasLimit := Some(gas.gasLimit));
    var txTwo := PopulatedTx(contract, secondPair, firstPair, percentageToKeep, withGas);
    BuiltBundles(
      txOne, txTwo,
      BundleWithParams(provider.blockNumber + 1, BlocksToTry,
                       [Reference(txHash), OwnTx(wallet.signTransaction(txOne), false)]),
      BundleWithParams(provider.blockNumber + 1, BlocksToTry,
                       [Reference(txHash), OwnTx(wallet.signTransaction(txTwo), false)]))
  }

  /** Both bundles target the same window, starting one block after the
      observed one and spanning `BlocksToTry` more blocks. */
  lemma BuiltBundlesShareWindow(contract: Address, percentageToKeep: int, wallet: Wallet, provider: Provider,
                                firstPair: Address, secondPair: Address, txHash: string)
    ensures var b := BuildSpec(contract, percentageToKeep, wallet, provider, firstPair, secondPair, txHash);
      && b.bundleOne.inclusion == b.bundleTwo.inclusion
      && b.bundleOne.version == b.bundleTwo.version == BundleVersion
      && Hex.ParseHexValue(b.bundleOne.inclusion.block) == Some(provider.blockNumber + 1)
      && Hex.ParseHexValue(b.bundleOne.inclusion.maxBlock) == Some(provider.blockNumber + 1 + BlocksToTry)
  {
  }

  /** Each body references the target first and carries the bot's own signed
      transaction second, and the two bundles reference the same target. */
  lemma BuiltBundlesBackrunTarget(contract: Address, percentageToKeep: int, wallet: Wallet, provider: Provider,
                                  firstPair: Address, secondPair: Address, txHash: string)
    ensures var b := BuildSpec(contract, percentageToKeep, wallet, provider, firstPair, secondPair, txHash);
      && IsBackrunBody(b.bundleOne.body, txHash)
      && IsBackrunBody(b.bundleTwo.body, txHash)
      && b.bundleOne.body[1].tx == wallet.signTransaction(b.txOne)
      && b.bundleTwo.body[1].tx == wallet.signTransaction(b.txTwo)
  {
  }

  /** The two transactions trade in opposite directions: they swap the pair
      arguments and nothing else but the gas fields; both use the one nonce read,
      and only the second carries the inflated gas estimates. */
  lemma BuiltBundlesMirrorEachOther(contract: Address, percentageToKeep: int, wallet: Wallet, provider: Provider,
                                    firstPair: Address, secondPair: Address, txHash: string)
    ensures var b := BuildSpec(contract, percentageToKeep, wallet, provider, firstPair, secondPair, txHash);
      var gas := EstimateGasCost(provider.estimateGas(b.txOne), provider.gasPrice);
      && b.txOne == PopulatedTx(contract, firstPair, secondPair, percentageToKeep,
                                TxOptions(provider.transactionCount, None, None))
      && b.txTwo == b.txOne.(firstPair := secondPair, secondPair := firstPair,
                             overrides := b.txOne.overrides.(gasPrice := Some(gas.gasPrice),
                                                             gasLimit := Some(gas.gasLimit)))
  {
  }

  // ---------------------------------------------------------------------------
  // The JSON-RPC envelope

  /** A request object of section 4 of the JSON-RPC 2.0 Specification. */
  datatype RelayRequest = RelayRequest(methodName: string, params: seq<Bundle>, id: nat, jsonrpc: string)

  const JsonRpcVersion := "2.0"
  const SendMethod := "mev_sendBundle"
  const SimMethod := "mev_simBundle"

  /** The request `sendBundle` or `simBundle` prepares: the bundle as the only
      parameter. */
  function Envelope(methodName: string, bundle: Bundle, id: nat): RelayRequest {
    RelayRequest(methodName, [bundle], id, JsonRpcVersion)
  }

  function EntryToJson(e: BodyEntry): Json {
    match e
    case Reference(hash) => JObject([("hash", JString(hash))])
    case OwnTx(tx, canRevert) => JObject([("tx", JString(tx)), ("canRevert", JBool(canRevert))])
  }

  function EntryFromJson(j: Json): Option<BodyEntry> {
    match j
    case JObject(ms) =>
      if |ms| == 1 && ms[0].0 == "hash" && ms[0].1.JString? then Some(Reference(ms[0].1.s))
      else if |ms| == 2 && ms[0].0 == "tx" && ms[0].1.JString? && ms[1].0 == "canRevert" && ms[1].1.JBool?
      then Some(OwnTx(ms[0].1.s, ms[1].1.b))
      else None
    case _ => None
  }

  function BundleToJson(b: Bundle): Json {
    JObject([
      ("version", JString(b.version)),
      ("inclusion", JObject([("block", JString(b.inclusion.block)), ("maxBlock", JString(b.inclusion.maxBlock))])),
      ("body", JArray(EncodeAll(b.body, EntryToJson)))])
  }

  function BundleFromJson(j: Json): Option<Bundle> {
    match j
    case JObject(ms) =>
      if |ms| == 3 && ms[0].0 == "version" && ms[0].1.JString?
         && ms[1].0 == "inclusion" && ms[1].1.JObject? && |ms[1].1.members| == 2
         && ms[1].1.members[0].0 == "block" && ms[1].1.members[0].1.JString?
         && ms[1].1.members[1].0 == "maxBlock" && ms[1].1.members[1].1.JString?
         && ms[2].0 == "body" && ms[2].1.JArray?
      then
        match DecodeAll(ms[2].1.items, EntryFromJson)
        case None => None
        case Some(body) =>
          Some(Bundle(ms[0].1.s, Inclusion(ms[1].1.members[0].1.s, ms[1].1.members[1].1.s), body))
      else None
    case _ => None
  }

  /** The object `prepareRelayRequest` builds, members in the literal's order. */
  function RequestToJson(r: RelayRequest): Json {
    JObject([
      ("method", JString(r.methodName)),
      ("params", JArray(EncodeAll(r.params, BundleToJson))),
      ("id", JNumber(r.id)),
      ("jsonrpc", JString(r.jsonrpc))])
  }

  function RequestFromJson(j: Json): Option<RelayRequest> {
    match j
    case JObject(ms) =>
      if |ms| == 4 && ms[0].0 == "method" && ms[0].1.JString?
         && ms[1].0 == "params" && ms[1].1.JArray?
         && ms[2].0 == "id" && ms[2].1.JNumber? && ms[2].1.n >= 0
         && ms[3].0 == "jsonrpc" && ms[3].1.JString?
      then
        match DecodeAll(ms[1].1.items, BundleFromJson)
        case None => None
        case Some(params) => Some(RelayRequest(ms[0].1.s, params, ms[2].1.n, ms[3].1.s))
      else None
    case _ => None
  }

  lemma EntryRoundTrip(e: BodyEntry)
    ensures EntryFromJson(EntryToJson(e)) == Some(e)
  {
  }

  lemma BundleRoundTrip(b: Bundle)
    ensures BundleFromJson(BundleToJson(b)) == Some(b)
  {
    forall e: BodyEntry ensures EntryFromJson(EntryToJson(e)) == Some(e) {
      EntryRoundTrip(e);
    }
    DecodeAllEncodeAll(b.body, EntryToJson, EntryFromJson);
  }

  /** The JSON object loses nothing: the request can be read back from it. */
  lemma RequestRoundTrip(r: RelayRequest)
    ensures RequestFromJson(RequestToJson(r)) == Some(r)
  {
    forall b: Bundle ensures BundleFromJson(BundleToJson(b)) == Some(b) {
      BundleRoundTrip(b);
    }
    DecodeAllEncodeAll(r.params, BundleToJson, BundleFromJson);
  }

  lemma RequestToJsonInjective(r: RelayRequest, s: RelayRequest)
    ensures RequestToJson(r) == RequestToJson(s) ==> r == s
  {
    RequestRoundTrip(r);
    RequestRoundTrip(s);
  }

  /** Method names starting with `rpc.` are reserved for the protocol itself. */
  predicate IsReservedMethodName(m: string) {
    |m| >= 4 && m[..4] == "rpc."
  }

  /** A Request object as section 4 of the JSON-RPC 2.0 Specification defines
      it, with an id (so it is not a notification and gets a response). */
  predicate IsJsonRpcRequest(j: Json) {
    && j.JObject?
    && DistinctKeys(j.members)
    && Lookup(j.members, "jsonrpc") == Some(JString("2.0"))
    && Lookup(j.members, "method").Some?
    && Lookup(j.members, "method").value.JString?
    && !IsReservedMethodName(Lookup(j.members, "method").value.s)
    && (Lookup(j.members, "params").None? ||
        Lookup(j.members, "params").value.JArray? || Lookup(j.members, "params").value.JObject?)
    && Lookup(j.members, "id").Some?
    && (Lookup(j.members, "id").value.JNumber? || Lookup(j.members, "id").value.JString?)
  }

  /** Both relay envelopes are well-formed JSON-RPC 2.0 requests carrying the
      bundle as their single parameter and the counter value as their id. */
  lemma EnvelopeIsJsonRpcRequest(methodName: string, bundle: Bundle, id: nat)
    requires methodName == SendMethod || methodName == SimMethod
    ensures IsJsonRpcRequest(RequestToJson(Envelope(methodName, bundle, id)))
    ensures Lookup(RequestToJson(Envelope(methodName, bundle, id)).members, "id") == Some(JNumber(id))
    ensures Lookup(RequestToJson(Envelope(methodName, bundle, id)).members, "params")
            == Some(JArray([BundleToJson(bundle)]))
  {
    var ms := RequestToJson(Envelope(methodName, bundle, id)).members;
    assert EncodeAll([bundle], BundleToJson) == [BundleToJson(bundle)];
    assert methodName[..4] == "mev_";
    assert ms[0].0 == "method" && ms[1].0 == "params" && ms[2].0 == "id" && ms[3].0 == "jsonrpc";
    assert ms[1..][1..][1..][1..] == [];
  }

  // ---------------------------------------------------------------------------
  // The authentication header

  const SignatureHeader := "X-Flashbots-Signature"

  /** The header value: the signer's address, a colon, the signature. */
  function AuthHeader(address: Address, signature: string): string {
    address + ":" + signature
  }

  /** The position of the first colon, or the length when there is none. */
  function FirstColon(s: string): (k: nat)
    ensures k <= |s|
    ensures k < |s| ==> s[k] == ':'
    ensures forall i :: 0 <= i < k ==> s[i] != ':'
  {
    if s == [] then 0 else if s[0] == ':' then 0 else 1 + FirstColon(s[1..])
  }

  /** How a relay reads the header back: address before the first colon,
      signature after it. */
  function SplitAuthHeader(h: string): (Address, string) {
    var k := FirstColon(h);
    if k < |h| then (h[..k], h[k + 1..]) else (h, "")
  }

  /** An address holds no colon, so the header splits back into the address
      and the signature. */
  lemma AuthHeaderSplits(address: Address, signature: string)
    requires forall i :: 0 <= i < |address| ==> address[i] != ':'
    ensures SplitAuthHeader(AuthHeader(address, signature)) == (address, signature)
  {
    var h := AuthHeader(address, signature);
    assert h[|address|] == ':';
    var k := FirstColon(h);
    assert forall i :: 0 <= i < |address| ==> h[i] == address[i];
    assert k == |address|;
    assert h[..k] == address;
    assert h[k + 1..] == signature;
  }

  // ---------------------------------------------------------------------------
  // The executor

  /** One HTTP POST to the relay: URL, headers and body text. */
  datatype Post = Post(url: string, headers: map<string, string>, body: string)

  class BundleExecutor {
    const signer: Wallet
    const contractAddress: Address
    const percentageToKeep: int
    /** `connectionInfo.url`. */
    const url: string
    /** `JSON.stringify`. */
    const stringify: Json -> string
    /** `ethers.utils.id`: the Keccak-256 hash of a text. */
    const messageId: string -> string

    /** The id the next relay request gets. */
    var nextID: nat
    /** `connectionInfo.headers`, overwritten by every request. */
    var headers: map<string, string>
    /** The POSTs issued so far, in order. */
    var posted: seq<Post>
    /** The relay requests prepared so far, in order. */
    ghost var issued: seq<RelayRequest>

    /** The k-th request prepared carries id k, and the counter is one past the
        last one. */
    ghost predicate Valid()
      reads this
    {
      && nextID == |issued| + 1
      && forall i :: 0 <= i < |issued| ==> issued[i].id == i + 1
    }

    constructor (signer: Wallet, contractAddress: Address, bundleAPI: string, percentageToKeep: int,
                 stringify: Json -> string, messageId: string -> string)
      ensures Valid()
      ensures this.signer == signer && this.contractAddress == contractAddress
      ensures this.url == bundleAPI && this.percentageToKeep == percentageToKeep
      ensures this.stringify == stringify && this.messageId == messageId
      ensures nextID == 1 && issued == [] && headers == map[] && posted == []
    {
      this.signer := signer;
      this.contractAddress := contractAddress;
      this.url := bundleAPI;
      this.percentageToKeep := percentageToKeep;
      this.stringify := stringify;
      this.messageId := messageId;
      nextID := 1;
      headers := map[];
      posted := [];
      issued := [];
    }

    /** Ids of prepared requests strictly increase and stay below the counter,
        so none repeats. */
    lemma IdsNeverRepeat()
      requires Valid()
      ensures forall i, j :: 0 <= i < j < |issued| ==> issued[i].id < issued[j].id
      ensures forall i :: 0 <= i < |issued| ==> issued[i].id < nextID
    {
    }

    /** `prepareRelayRequest(params, method)`: the id is the counter's value,
        which is then incremented. */
    method PrepareRelayRequest(params: seq<Bundle>, methodName: string) returns (r: RelayRequest)
      requires Valid()
      modifies this`nextID, this`issued
      ensures Valid()
      ensures r == RelayRequest(methodName, params, old(nextID), JsonRpcVersion)
      ensures nextID == old(nextID) + 1
      ensures issued == old(issued) + [r]
    {
      r := RelayRequest(methodName, params, nextID, JsonRpcVersion);
      nextID := nextID + 1;
      issued := issued + [r];
    }

    /** The headers `request(text)` installs: the signature over the text's
        hash, bound to the signer's address. */
    function AuthHeaders(text: string): map<string, string> {
      map[SignatureHeader := AuthHeader(signer.address, signer.signMessage(messageId(text)))]
    }

    /** The POST that carries a request: its stringified JSON, signed. */
    function SignedPost(r: RelayRequest): Post {
      var text := stringify(RequestToJson(r));
      Post(url, AuthHeaders(text), text)
    }

    /** When `JSON.stringify` is injective, two different requests are posted
        with different bodies, so the signature over a body covers every field
        of its request. */
    lemma SignedBodiesDiffer(r: RelayRequest, s: RelayRequest)
      requires forall a, b :: stringify(a) == stringify(b) ==> a == b
      ensures r != s ==> SignedPost(r).body != SignedPost(s).body
    {
      RequestToJsonInjective(r, s);
    }

    /** `request(text)`: replaces the headers, then posts the very text that
        was signed. `relay` stands for the relay's answer. */
    method Request(text: string, relay: Post -> Json) returns (response: Json)
      modifies this`headers, this`posted
      ensures headers == AuthHeaders(text)
      ensures posted == old(posted) + [Post(url, AuthHeaders(text), text)]
      ensures response == relay(Post(url, AuthHeaders(text), text))
    {
      headers := AuthHeaders(text);
      var post := Post(url, headers, text);
      posted := posted + [post];
      response := relay(post);
    }

    /** `sendBundle(bundle)`. */
    method SendBundle(bundle: Bundle, relay: Post -> Json)
      requires Valid()
      modifies this`nextID, this`issued, this`headers, this`posted
      ensures Valid()
      ensures nextID == old(nextID) + 1
      ensures issued == old(issued) + [Envelope(SendMethod, bundle, old(nextID))]
      ensures posted == old(posted) + [SignedPost(Envelope(SendMethod, bundle, old(nextID)))]
      ensures headers == SignedPost(Envelope(SendMethod, bundle, old(nextID))).headers
    {
      var r := PrepareRelayRequest([bundle], SendMethod);
      var text := stringify(RequestToJson(r));
      var response := Request(text, relay);
    }

    /** `simBundle(bundle)`: the same envelope under the simulation method. */
    method SimBundle(bundle: Bundle, relay: Post -> Json) returns (response: Json)
      requires Valid()
      modifies this`nextID, this`issued, this`headers, this`posted
      ensures Valid()
      ensures nextID == old(nextID) + 1
      ensures issued == old(issued) + [Envelope(SimMethod, bundle, old(nextID))]
      ensures posted == old(posted) + [SignedPost(Envelope(SimMethod, bundle, old(nextID)))]
      ensures headers == SignedPost(Envelope(SimMethod, bundle, old(nextID))).headers
      ensures response == relay(SignedPost(Envelope(SimMethod, bundle, old(nextID))))
    {
      var r := PrepareRelayRequest([bundle], SimMethod);
      var text := stringify(RequestToJson(r));
      response := Request(text, relay);
    }

    /** `buildBundles(firstPair, secondPair, txHash)`, filling in the shared
        options object step by step. */
    method BuildBundles(firstPair: Address, secondPair: Address, txHash: string, provider: Provider)
      returns (bundleOne: Bundle, bundleTwo: Bundle)
      ensures bundleOne == BuildSpec(contractAddress, percentageToKeep, signer, provider, firstPair, secondPair, txHash).bundleOne
      ensures bundleTwo == BuildSpec(contractAddress, percentageToKeep, signer, provider, firstPair, secondPair, txHash).bundleTwo
    {
      var blockNumber := provider.blockNumber;
      var options := TxOptions(provider.transactionCount, None, None);
      var txOne := PopulatedTx(contractAddress, firstPair, secondPair, percentageToKeep, options);
      var gas := EstimateGasCost(provider.estimateGas(txOne), provider.gasPrice);
      options := options.(gasPrice := Some(gas.gasPrice));
      options := options.(gasLimit := Some(gas.gasLimit));
      var bodyOne := [Reference(txHash), OwnTx(signer.signTransaction(txOne), false)];
      var txTwo := PopulatedTx(contractAddress, secondPair, firstPair, percentageToKeep, options);
      var bodyTwo := [Reference(txHash), OwnTx(signer.signTransaction(txTwo), false)];
      bundleOne := BundleWithParams(blockNumber + 1, BlocksToTry, bodyOne);
      bundleTwo := BundleWithParams(blockNumber + 1, BlocksToTry, bodyTwo);
    }

    /** `sendBundleToMatchMaker(one, two)`: both bundles go out, the first one
        prepared first. */
    method SendBundleToMatchMaker(bundleOne: Bundle, bundleTwo: Bundle, relay: Post -> Json)
      requires Valid()
      modifies this`nextID, this`issued, this`headers, this`posted
      ensures Valid()
      ensures nextID == old(nextID) + 2
      ensures issued == old(issued) + [Envelope(SendMethod, bundleOne, old(nextID)),
                                       Envelope(SendMethod, bundleTwo, old(nextID) + 1)]
      ensures posted == old(posted) + [SignedPost(Envelope(SendMethod, bundleOne, old(nextID))),
                                       SignedPost(Envelope(SendMethod, bundleTwo, old(nextID) + 1))]
    {
      SendBundle(bundleOne, relay);
      SendBundle(bundleTwo, relay);
    }

    /** `execute(firstPair, secondPair, txHash)`: build both bundles and send
        them. */
    method Execute(firstPair: Address, secondPair: Address, txHash: string, provider: Provider,
                   relay: Post -> Json)
      requires Valid()
      modifies this`nextID, this`issued, this`headers, this`posted
      ensures Valid()
      ensures nextID == old(nextID) + 2
      ensures var b := BuildSpec(contractAddress, percentageToKeep, signer, provider, firstPair, secondPair, txHash);
        issued == old(issued) + [Envelope(SendMethod, b.bundleOne, old(nextID)),
                                 Envelope(SendMethod, b.bundleTwo, old(nextID) + 1)]
      ensures var b := BuildSpec(contractAddress, percentageToKeep, signer, provider, firstPair, secondPair, txHash);
        posted == old(posted) + [SignedPost(Envelope(SendMethod, b.bundleOne, old(nextID))),
                                 SignedPost(Envelope(SendMethod, b.bundleTwo, old(nextID) + 1))]
    {
      var bundleOne, bundleTwo := BuildBundles(firstPair, secondPair, txHash, provider);
      SendBundleToMatchMaker(bundleOne, bundleTwo, relay);
    }
  }
}
