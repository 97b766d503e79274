/**
 * The renderer of ui/tx/details/txDetailsActions/TxDetailsAction.tsx as a pure
 * producer of display segments. It dispatches on the protocol, then on the
 * action type, and returns the ordered pieces of the description; `None`
 * stands for the `null` fallbacks. Layout and styling are not modelled: only
 * the kinds of pieces, their order and the arguments given to the entity
 * components.
 */
module ActionRenderer {

  import opened Wrappers
  import opened ActionModel

  /** What a token reference is given: the address, the display name, and whether it links. */
  datatype TokenRef = TokenRef(addressHash: string, name: Option<string>, linkable: bool)

  /** One piece of the rendered description. */
  datatype Segment =
    | Text(text: string)                       // a text label
    | Amount(formatted: string)                // a formatted amount
    | Token(token: TokenRef)                   // a token reference
    | Address(hash: string)                    // an address reference
    | Nft(hash: string, id: string)            // an NFT reference: collection address and token id
    | Row(key: string, items: seq<Segment>)    // a keyed line of a list
    | Entity(hash: string, href: string)       // a ledger-entity reference linking to `href`
    | Block(number: int)                       // a block reference
    | Badge(icon: string, title: string)       // a protocol badge

  /** The reserved symbol that marks the chain's native currency on a token side. */
  const NativeSymbol: string := "Ether"

  /** The route prefix of a ledger entity's page. */
  const EntityRoute: string := "/golembase/entity/"

  /** The verb/phrase table, keyed by the `type` literal: (type, verb, phrase). */
  const ActionTextRows: set<(string, string, string)> := {
    ("mint", "Added", "liquidity to"),
    ("burn", "Removed", "liquidity from"),
    ("collect", "Collected", "from"),
    ("swap", "Swapped", "on")}

  /** The leading verb and trailing phrase of a two-sided Uniswap action. */
  function GetActionText(k: GeneralType): (r: (string, string))
    ensures (GeneralTypeTag(k), r.0, r.1) in ActionTextRows
  {
    match k
    case Mint => ("Added", "liquidity to")
    case Burn => ("Removed", "liquidity from")
    case Collect => ("Collected", "from")
    case Swap => ("Swapped", "on")
  }

  /** The word between the two sides. */
  function Connective(k: GeneralType): (c: string)
    ensures c == "for" <==> k == Swap
    ensures c == "and" <==> k != Swap
  {
    if k == Swap then "for" else "and"
  }

  /**
   * The configured native currency symbol as a token name: an unset or empty
   * symbol (both falsy in the source's `|| null`) gives no name.
   */
  function NativeCurrencyName(currencySymbol: Option<string>): (r: Option<string>)
    ensures r.Some? <==> currencySymbol.Some? && currencySymbol.value != ""
    ensures r.Some? ==> r == currencySymbol
  {
    match currencySymbol
    case Some(s) => if s != "" then Some(s) else None
    case None => None
  }

  /** The token reference of one side of a two-sided action. */
  function SideToken(symbol: string, address: string, currencySymbol: Option<string>): (r: TokenRef)
    ensures r.linkable <==> symbol != NativeSymbol
    ensures symbol == NativeSymbol ==> r.addressHash == "" && r.name == NativeCurrencyName(currencySymbol)
    ensures symbol != NativeSymbol ==> r.addressHash == address && r.name == Some(symbol)
  {
    if symbol == NativeSymbol then TokenRef("", NativeCurrencyName(currencySymbol), false)
    else TokenRef(address, Some(symbol), true)
  }

  /**
   * Description of `mint`, `burn`, `collect` and `swap`: verb, amount0,
   * token0, connective, amount1, token1, phrase, badge.
   */
  function GeneralSegments(k: GeneralType, d: GeneralData, formatAmount: string -> string,
                           currencySymbol: Option<string>): (r: seq<Segment>)
    ensures |r| == 8
    ensures r[0] == Text(GetActionText(k).0) && r[6] == Text(GetActionText(k).1)
    ensures r[1] == Amount(formatAmount(d.amount0)) && r[4] == Amount(formatAmount(d.amount1))
    ensures r[2] == Token(SideToken(d.symbol0, d.address0, currencySymbol))
    ensures r[5] == Token(SideToken(d.symbol1, d.address1, currencySymbol))
    ensures r[3] == Text(Connective(k))
    ensures r[7] == Badge("uniswap", "Uniswap V3")
  {
    var (verb, phrase) := GetActionText(k);
    [ Text(verb),
      Amount(formatAmount(d.amount0)),
      Token(SideToken(d.symbol0, d.address0, currencySymbol)),
      Text(Connective(k)),
      Amount(formatAmount(d.amount1)),
      Token(SideToken(d.symbol1, d.address1, currencySymbol)),
      Text(phrase),
      Badge("uniswap", "Uniswap V3") ]
  }

  /** One line of the minted-ids list, keyed by the collection address followed by the id. */
  function IdLine(address: string, id: string): (r: Segment)
    ensures r.Row? && r.key == address + id
    ensures r.items == [Text("1"), Text("of token ID"), Nft(address, id)]
  {
    Row(address + id, [Text("1"), Text("of token ID"), Nft(address, id)])
  }

  /** The minted-ids list: one line per id, in input order. */
  function IdLines(address: string, ids: seq<string>): (r: seq<Segment>)
    ensures |r| == |ids|
    ensures forall i :: 0 <= i < |ids| ==> r[i] == IdLine(address, ids[i])
  {
    if ids == [] then [] else [IdLine(address, ids[0])] + IdLines(address, ids[1..])
  }

  /** Description of `mint_nft`; the collection's `symbol` is not shown. */
  function MintNftSegments(n: NftData): (r: seq<Segment>)
    ensures |r| == 4 + |n.ids|
    ensures r[..4] == [Text("Minted"), Token(TokenRef(n.address, Some(n.name), true)), Text("to"), Address(n.to)]
    ensures forall i :: 0 <= i < |n.ids| ==> r[4 + i] == IdLine(n.address, n.ids[i])
  {
    [ Text("Minted"),
      Token(TokenRef(n.address, Some(n.name), true)),
      Text("to"),
      Address(n.to) ]
    + IdLines(n.address, n.ids)
  }

  /** `handleUniswapV3`. */
  function HandleUniswapV3(u: UniswapAction, formatAmount: string -> string,
                           currencySymbol: Option<string>): (r: Option<seq<Segment>>)
    ensures r.Some?
    ensures u.General? ==> |r.value| == 8 && r.value[7] == Badge("uniswap", "Uniswap V3")
    ensures u.MintNft? ==> |r.value| == 4 + |u.nft.ids| && r.value[0] == Text("Minted")
  {
    match u
    case General(k, d) => Some(GeneralSegments(k, d, formatAmount, currencySymbol))
    case MintNft(n) => Some(MintNftSegments(n))
  }

  /** The link target of a ledger entity. */
  function EntityHref(entityId: string): (h: string)
    ensures |h| == |EntityRoute| + |entityId|
    ensures h[..|EntityRoute|] == EntityRoute && h[|EntityRoute|..] == entityId
  {
    EntityRoute + entityId
  }

  /** `handleGolemBase`: every variant shows the entity reference second. */
  function HandleGolemBase(g: GolemBaseAction): (r: Option<seq<Segment>>)
    ensures r.Some? && |r.value| >= 2
    ensures r.value[1] == Entity(g.entityId, EntityRoute + g.entityId)
    ensures |r.value| == (if g.EntityDeleted? then 2 else if g.EntityTtlExtended? then 6 else 4)
  {
    var entity := Entity(g.entityId, EntityHref(g.entityId));
    match g
    case EntityCreated(_, expiration) =>
      Some([Text("Entity created:"), entity, Text("expiring at block"), Block(expiration)])
    case EntityUpdated(_, expiration) =>
      Some([Text("Entity updated:"), entity, Text("expiring at block"), Block(expiration)])
    case EntityDeleted(_) =>
      Some([Text("Entity deleted:"), entity])
    case EntityTtlExtended(_, oldBlock, newBlock) =>
      Some([Text("Entity lifetime extended:"), entity, Text("from block"), Block(oldBlock),
            Text("to block"), Block(newBlock)])
  }

  /** `TxDetailsAction`: dispatch on the protocol. */
  function TxDetailsAction(a: TxAction, formatAmount: string -> string,
                           currencySymbol: Option<string>): (r: Option<seq<Segment>>)
    ensures r.Some?
  {
    match a
    case UniswapV3(u) => HandleUniswapV3(u, formatAmount, currencySymbol)
    case GolemBase(g) => HandleGolemBase(g)
  }

  /** The block numbers referenced by a description, in order of appearance. */
  function BlockNumbers(s: seq<Segment>): (r: seq<int>)
    ensures |r| <= |s|
    ensures forall k :: 0 <= k < |r| ==> Block(r[k]) in s
    ensures forall k :: 0 <= k < |s| && s[k].Block? ==> s[k].number in r
  {
    if s == [] then []
    else (if s[0].Block? then [s[0].number] else []) + BlockNumbers(s[1..])
  }

  // ---------------------------------------------------------------- properties

  /** Distinct types get distinct verbs and distinct phrases: each determines the type. */
  lemma ActionTextInjective(k1: GeneralType, k2: GeneralType)
    ensures GetActionText(k1).0 == GetActionText(k2).0 <==> k1 == k2
    ensures GetActionText(k1).1 == GetActionText(k2).1 <==> k1 == k2
  {
  }

  /**
   * A two-sided action renders as verb, amount0, token0, connective, amount1,
   * token1, phrase and the "Uniswap V3" badge, in that order.
   */
  lemma GeneralLayout(k: GeneralType, d: GeneralData, formatAmount: string -> string,
                      currencySymbol: Option<string>)
    ensures var r := TxDetailsAction(UniswapV3(General(k, d)), formatAmount, currencySymbol);
      && r.Some? && |r.value| == 8
      && r.value[0] == Text(GetActionText(k).0)
      && r.value[1] == Amount(formatAmount(d.amount0))
      && r.value[2] == Token(SideToken(d.symbol0, d.address0, currencySymbol))
      && r.value[3] == Text(Connective(k))
      && r.value[4] == Amount(formatAmount(d.amount1))
      && r.value[5] == Token(SideToken(d.symbol1, d.address1, currencySymbol))
      && r.value[6] == Text(GetActionText(k).1)
      && r.value[7] == Badge("uniswap", "Uniswap V3")
  {
  }

  /**
   * Changing the type of a two-sided action changes only the verb, the
   * connective and the phrase; amounts, token references and badge stay.
   */
  lemma TypeChangesOnlyWords(k1: GeneralType, k2: GeneralType, d: GeneralData,
                             formatAmount: string -> string, currencySymbol: Option<string>)
    ensures var r1 := TxDetailsAction(UniswapV3(General(k1, d)), formatAmount, currencySymbol).value;
      var r2 := TxDetailsAction(UniswapV3(General(k2, d)), formatAmount, currencySymbol).value;
      && |r1| == |r2|
      && (forall i :: 0 <= i < |r1| && i !in {0, 3, 6} ==> r1[i] == r2[i])
      && (r1[0] == r2[0] <==> k1 == k2)
      && (r1[6] == r2[6] <==> k1 == k2)
      && (r1[3] == r2[3] <==> (k1 == Swap <==> k2 == Swap))
  {
    GeneralLayout(k1, d, formatAmount, currencySymbol);
    GeneralLayout(k2, d, formatAmount, currencySymbol);
    ActionTextInjective(k1, k2);
  }

  /**
   * Keyed on the action's `type` literal, the verb and phrase of a two-sided
   * description are one row of the table, and the connective is "for"
   * exactly for "swap".
   */
  lemma ActionTextTable(k: GeneralType, d: GeneralData, formatAmount: string -> string,
                        currencySymbol: Option<string>)
    ensures var a := UniswapV3(General(k, d));
      var r := TxDetailsAction(a, formatAmount, currencySymbol).value;
      && |r| == 8 && r[0].Text? && r[3].Text? && r[6].Text?
      && (TypeOf(a), r[0].text, r[6].text) in ActionTextRows
      && (r[3] == Text("for") <==> TypeOf(a) == "swap")
      && (r[3] == Text("and") <==> TypeOf(a) != "swap")
  {
    GeneralLayout(k, d, formatAmount, currencySymbol);
  }

  /**
   * `mint_nft` renders "Minted", the collection's token reference, "to", the
   * recipient, then exactly one line per id, in input order.
   */
  lemma MintNftLayout(n: NftData, formatAmount: string -> string, currencySymbol: Option<string>)
    ensures var r := TxDetailsAction(UniswapV3(MintNft(n)), formatAmount, currencySymbol);
      && r.Some? && |r.value| == 4 + |n.ids|
      && r.value[0] == Text("Minted")
      && r.value[1] == Token(TokenRef(n.address, Some(n.name), true))
      && r.value[2] == Text("to")
      && r.value[3] == Address(n.to)
      && forall i :: 0 <= i < |n.ids| ==>
           r.value[4 + i] == Row(n.address + n.ids[i], [Text("1"), Text("of token ID"), Nft(n.address, n.ids[i])])
  {
  }

  /** The collection symbol of a `mint_nft` action has no effect on its description. */
  lemma MintNftIgnoresSymbol(n: NftData, symbol: string, formatAmount: string -> string,
                             currencySymbol: Option<string>)
    ensures TxDetailsAction(UniswapV3(MintNft(n.(symbol := symbol))), formatAmount, currencySymbol)
         == TxDetailsAction(UniswapV3(MintNft(n)), formatAmount, currencySymbol)
  {
  }

  /** The block references of a concatenation are those of its parts, in order. */
  lemma {:induction false} BlockNumbersAppend(s: seq<Segment>, t: seq<Segment>)
    ensures BlockNumbers(s + t) == BlockNumbers(s) + BlockNumbers(t)
  {
    if s == [] {
      assert s + t == t;
    } else {
      assert (s + t)[1..] == s[1..] + t;
      BlockNumbersAppend(s[1..], t);
    }
  }

  /** A description without block pieces references no block. */
  lemma {:induction false} BlockNumbersNone(s: seq<Segment>)
    requires forall i :: 0 <= i < |s| ==> !s[i].Block?
    ensures BlockNumbers(s) == []
  {
    if s != [] {
      BlockNumbersNone(s[1..]);
    }
  }

  /** A two-sided action's description references no block. */
  lemma GeneralHasNoBlocks(k: GeneralType, d: GeneralData, formatAmount: string -> string,
                           currencySymbol: Option<string>)
    ensures BlockNumbers(TxDetailsAction(UniswapV3(General(k, d)), formatAmount, currencySymbol).value) == []
  {
    var r := TxDetailsAction(UniswapV3(General(k, d)), formatAmount, currencySymbol).value;
    GeneralLayout(k, d, formatAmount, currencySymbol);
    BlockNumbersNone(r);
  }

  /** Every ledger description shows, second, the entity linking to its page. */
  lemma GolemBaseEntityReference(g: GolemBaseAction, formatAmount: string -> string,
                                 currencySymbol: Option<string>)
    ensures var r := TxDetailsAction(GolemBase(g), formatAmount, currencySymbol);
      r.Some? && |r.value| >= 2 && r.value[1] == Entity(g.entityId, "/golembase/entity/" + g.entityId)
  {
  }

  /**
   * The full description of each ledger action: its label, the entity
   * reference, then "expiring at block" and the expiration block for created
   * and updated, nothing more for deleted, and "from block", the old block,
   * "to block", the new block for a lifetime extension.
   */
  lemma GolemBaseLayout(g: GolemBaseAction, formatAmount: string -> string,
                        currencySymbol: Option<string>)
    ensures var entity := Entity(g.entityId, "/golembase/entity/" + g.entityId);
      TxDetailsAction(GolemBase(g), formatAmount, currencySymbol) == Some(
        match g
        case EntityCreated(_, e) => [Text("Entity created:"), entity, Text("expiring at block"), Block(e)]
        case EntityUpdated(_, e) => [Text("Entity updated:"), entity, Text("expiring at block"), Block(e)]
        case EntityDeleted(_) => [Text("Entity deleted:"), entity]
        case EntityTtlExtended(_, o, n) =>
          [Text("Entity lifetime extended:"), entity, Text("from block"), Block(o), Text("to block"), Block(n)])
  {
  }

  /**
   * The block references of a ledger description: one (the expiration) for
   * created and updated, none for deleted, old then new for a lifetime
   * extension, whatever the two numbers are.
   */
  lemma {:induction false} GolemBaseBlocks(g: GolemBaseAction, formatAmount: string -> string,
                                           currencySymbol: Option<string>)
    ensures BlockNumbers(TxDetailsAction(GolemBase(g), formatAmount, currencySymbol).value) ==
      match g
      case EntityCreated(_, e) => [e]
      case EntityUpdated(_, e) => [e]
      case EntityDeleted(_) => []
      case EntityTtlExtended(_, o, n) => [o, n]
  {
    var r := TxDetailsAction(GolemBase(g), formatAmount, currencySymbol).value;
    var head := r[..2];
    assert BlockNumbers(head) == [] by {
      assert head[1..] == [head[1]];
    }
    match g
    case EntityCreated(_, e) =>
      assert r == head + ([Text("expiring at block")] + [Block(e)]);
      BlockNumbersAppend(head, [Text("expiring at block")] + [Block(e)]);
      BlockNumbersAppend([Text("expiring at block")], [Block(e)]);
    case EntityUpdated(_, e) =>
      assert r == head + ([Text("expiring at block")] + [Block(e)]);
      BlockNumbersAppend(head, [Text("expiring at block")] + [Block(e)]);
      BlockNumbersAppend([Text("expiring at block")], [Block(e)]);
    case EntityDeleted(_) =>
      assert r == head;
    case EntityTtlExtended(_, o, n) =>
      var tail := [Text("from block")] + ([Block(o)] + ([Text("to block")] + [Block(n)]));
      assert r == head + tail;
      BlockNumbersAppend(head, tail);
      BlockNumbersAppend([Text("from block")], [Block(o)] + ([Text("to block")] + [Block(n)]));
      BlockNumbersAppend([Block(o)], [Text("to block")] + [Block(n)]);
      BlockNumbersAppend([Text("to block")], [Block(n)]);
  }

  /** Distinct entities link to distinct pages, and the page names the entity. */
  lemma EntityHrefInjective(id1: string, id2: string)
    ensures EntityHref(id1) == EntityHref(id2) <==> id1 == id2
  {
    if EntityHref(id1) == EntityHref(id2) {
      assert id1 == EntityHref(id1)[|EntityRoute|..];
    }
  }
}
