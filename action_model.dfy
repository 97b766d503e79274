/**
 * The transaction-action model of types/api/txAction.ts: a closed tagged union
 * keyed first by protocol and then by action type. Each constructor carries the
 * fixed field set of its variant, so a (protocol, type) pair that the union does
 * not declare cannot be built at all.
 */
module ActionModel {

  /** The four two-sided Uniswap V3 action types that share one data shape. */
  datatype GeneralType = Mint | Burn | Collect | Swap

  /** Data of `mint`, `burn`, `collect` and `swap`: all six fields are strings. */
  datatype GeneralData = GeneralData(
    amount0: string, symbol0: string, address0: string,
    amount1: string, symbol1: string, address1: string)

  /** Data of `mint_nft`: `ids` keeps the order of the minted token ids. */
  datatype NftData = NftData(name: string, symbol: string, address: string, to: string, ids: seq<string>)

  /** The `uniswap_v3` family. */
  datatype UniswapAction =
    | General(kind: GeneralType, data: GeneralData)
    | MintNft(nft: NftData)

  /**
   * The `golembase` family. Block numbers are plain integers; nothing relates
   * the old and the new expiration block of a lifetime extension.
   */
  datatype GolemBaseAction =
    | EntityCreated(entityId: string, expirationBlock: int)
    | EntityUpdated(entityId: string, expirationBlock: int)
    | EntityDeleted(entityId: string)
    | EntityTtlExtended(entityId: string, oldExpirationBlock: int, newExpirationBlock: int)

  /** `TxAction` is exactly the union of the two protocol families. */
  datatype TxAction =
    | UniswapV3(uniswap: UniswapAction)
    | GolemBase(golembase: GolemBaseAction)

  const UniswapV3Tag: string := "uniswap_v3"
  const GolemBaseTag: string := "golembase"

  /** The `type` literals admitted under each protocol. */
  const UniswapTypes: set<string> := {"mint", "burn", "collect", "swap", "mint_nft"}
  const GolemBaseTypes: set<string> := {
    "golembase_entity_created", "golembase_entity_updated",
    "golembase_entity_deleted", "golembase_entity_ttl_extended"}

  /** The (protocol, type) pairs the union declares. */
  predicate Declared(protocol: string, typ: string) {
    (protocol == UniswapV3Tag && typ in UniswapTypes)
    || (protocol == GolemBaseTag && typ in GolemBaseTypes)
  }

  /** The `type` literal of a two-sided action: one literal per type. */
  function GeneralTypeTag(k: GeneralType): (t: string)
    ensures t == "mint" <==> k == Mint
    ensures t == "burn" <==> k == Burn
    ensures t == "collect" <==> k == Collect
    ensures t == "swap" <==> k == Swap
  {
    match k
    case Mint => "mint"
    case Burn => "burn"
    case Collect => "collect"
    case Swap => "swap"
  }

  /** The `protocol` field of an action. */
  function ProtocolOf(a: TxAction): (p: string)
    ensures p == UniswapV3Tag <==> a.UniswapV3?
    ensures p == GolemBaseTag <==> a.GolemBase?
  {
    match a
    case UniswapV3(_) => UniswapV3Tag
    case GolemBase(_) => GolemBaseTag
  }

  /** The `type` field of an action. */
  function TypeOf(a: TxAction): (t: string)
    ensures a.UniswapV3? <==> t in UniswapTypes
    ensures a.GolemBase? <==> t in GolemBaseTypes
    ensures t == "mint" <==> a.UniswapV3? && a.uniswap.General? && a.uniswap.kind == Mint
    ensures t == "burn" <==> a.UniswapV3? && a.uniswap.General? && a.uniswap.kind == Burn
    ensures t == "collect" <==> a.UniswapV3? && a.uniswap.General? && a.uniswap.kind == Collect
    ensures t == "swap" <==> a.UniswapV3? && a.uniswap.General? && a.uniswap.kind == Swap
    ensures t == "mint_nft" <==> a.UniswapV3? && a.uniswap.MintNft?
    ensures t == "golembase_entity_created" <==> a.GolemBase? && a.golembase.EntityCreated?
    ensures t == "golembase_entity_updated" <==> a.GolemBase? && a.golembase.EntityUpdated?
    ensures t == "golembase_entity_deleted" <==> a.GolemBase? && a.golembase.EntityDeleted?
    ensures t == "golembase_entity_ttl_extended" <==> a.GolemBase? && a.golembase.EntityTtlExtended?
  {
    match a
    case UniswapV3(General(k, _)) => GeneralTypeTag(k)
    case UniswapV3(MintNft(_)) => "mint_nft"
    case GolemBase(EntityCreated(_, _)) => "golembase_entity_created"
    case GolemBase(EntityUpdated(_, _)) => "golembase_entity_updated"
    case GolemBase(EntityDeleted(_)) => "golembase_entity_deleted"
    case GolemBase(EntityTtlExtended(_, _, _)) => "golembase_entity_ttl_extended"
  }

  /** Two actions are of the same variant: same constructor, and same type for the general family. */
  predicate SameVariant(a: TxAction, b: TxAction) {
    match (a, b)
    case (UniswapV3(General(k1, _)), UniswapV3(General(k2, _))) => k1 == k2
    case (UniswapV3(MintNft(_)), UniswapV3(MintNft(_))) => true
    case (GolemBase(EntityCreated(_, _)), GolemBase(EntityCreated(_, _))) => true
    case (GolemBase(EntityUpdated(_, _)), GolemBase(EntityUpdated(_, _))) => true
    case (GolemBase(EntityDeleted(_)), GolemBase(EntityDeleted(_))) => true
    case (GolemBase(EntityTtlExtended(_, _, _)), GolemBase(EntityTtlExtended(_, _, _))) => true
    case _ => false
  }

  /** Every action carries a declared (protocol, type) pair: illegal pairs are unrepresentable. */
  lemma TagsDeclared(a: TxAction)
    ensures Declared(ProtocolOf(a), TypeOf(a))
  {
  }

  /** Every declared (protocol, type) pair is the tag of some action. */
  lemma DeclaredTagsInhabited(protocol: string, typ: string)
    requires Declared(protocol, typ)
    ensures exists a :: ProtocolOf(a) == protocol && TypeOf(a) == typ
  {
    var g := GeneralData("", "", "", "", "", "");
    var w: TxAction;
    if protocol == UniswapV3Tag {
      w := if typ == "mint" then UniswapV3(General(Mint, g))
        else if typ == "burn" then UniswapV3(General(Burn, g))
        else if typ == "collect" then UniswapV3(General(Collect, g))
        else if typ == "swap" then UniswapV3(General(Swap, g))
        else UniswapV3(MintNft(NftData("", "", "", "", [])));
    } else {
      w := if typ == "golembase_entity_created" then GolemBase(EntityCreated("", 0))
        else if typ == "golembase_entity_updated" then GolemBase(EntityUpdated("", 0))
        else if typ == "golembase_entity_deleted" then GolemBase(EntityDeleted(""))
        else GolemBase(EntityTtlExtended("", 0, 0));
    }
    assert ProtocolOf(w) == protocol && TypeOf(w) == typ;
  }

  /**
   * The `type` literal alone identifies the variant, and hence the protocol and
   * the data shape: no type literal is shared between the two protocol families.
   */
  lemma TypeTagDeterminesVariant(a: TxAction, b: TxAction)
    ensures TypeOf(a) == TypeOf(b) <==> SameVariant(a, b)
    ensures TypeOf(a) == TypeOf(b) ==> ProtocolOf(a) == ProtocolOf(b)
  {
  }
}
