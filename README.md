# Transaction actions: model and renderer

A Dafny model of the transaction-action summaries of a blockchain explorer
front end, and of the component that describes them.

- An **action** is a tagged union keyed first by `protocol`, then by `type`.
  Under `uniswap_v3` there are four two-sided liquidity/swap actions (`mint`,
  `burn`, `collect`, `swap`) that share one data shape, and `mint_nft`. Under
  `golembase` there are four ledger-entity actions (`created`, `updated`,
  `deleted`, `ttl_extended`). Module `ActionModel` (`action_model.dfy`) makes
  these datatypes. Their constructors carry each variant's fixed field set, so
  a `(protocol, type)` pair the union does not declare cannot be built. The
  string tags are recovered by `ProtocolOf` and `TypeOf`.
- The **renderer** (`TxDetailsAction`, with `handleUniswapV3`,
  `handleGolemBase` and `getActionText`) is module `ActionRenderer`
  (`action_renderer.dfy`). It is a pure function from an action to
  `Option<seq<Segment>>`. A `Segment` is one piece of the description: a text
  label, an amount, a token, address, NFT, entity or block reference, a keyed
  row of the minted-ids list, or the protocol badge. `None` stands for the
  source's `null` fallbacks.
- The renderer's collaborators are given as parameters:
  - amount formatting (`BigNumber(...).toFormat()`) is `formatAmount: string -> string`;
  - the configured native currency symbol is `currencySymbol: Option<string>`.
- Module `ActionScenarios` (`scenarios.dfy`) proves the descriptions of three concrete actions
  (a native-currency swap, a lifetime extension, a mint_nft with no ids).
- `Wrappers` (`wrappers.dfy`) holds the `Option` datatype.

The source's `switch` statements have `default: return null` arms, and the
top-level dispatch falls off its `switch` for an unknown protocol. Dafny's
`match` over the closed datatype is exhaustive, so these arms have no input
here. The contract of `TxDetailsAction` states that every action gets a description.

## Model

| member | source | states |
|---|---|---|
| ActionModel.ProtocolOf | types/api/txAction.ts:56-69 | the protocol tag is `uniswap_v3` exactly for the Uniswap family and `golembase` exactly for the ledger family |
| ActionModel.GeneralTypeTag | types/api/txAction.ts:2 | each two-sided type has its own literal: "mint" exactly for mint, "burn" for burn, "collect" for collect, "swap" for swap |
| ActionModel.TypeOf | types/api/txAction.ts:1-67 | the type tag belongs to the Uniswap literals exactly for Uniswap actions and to the `golembase_entity_*` literals exactly for ledger actions; and for each of the nine literals, an action carries it if and only if it is that literal's variant (so "mint_nft" carries the NFT data, "golembase_entity_deleted" only the entity id) |
| ActionModel.TagsDeclared | types/api/txAction.ts:56-69 | every action's (protocol, type) pair is one the union declares: a ledger type under uniswap_v3, or the reverse, cannot be built |
| ActionModel.DeclaredTagsInhabited | types/api/txAction.ts:56-69 | every declared (protocol, type) pair is the tag of some action, so the union is exactly the two families |
| ActionModel.TypeTagDeterminesVariant | types/api/txAction.ts:1-69 | two actions have the same type tag if and only if they are the same variant; the type tag then fixes the protocol as well |
| ActionRenderer.GetActionText | ui/tx/details/txDetailsActions/TxDetailsAction.tsx:19-26 | (type literal, verb, phrase) is a row of the table: mint → Added / liquidity to, burn → Removed / liquidity from, collect → Collected / from, swap → Swapped / on |
| ActionRenderer.ActionTextTable | ui/tx/details/txDetailsActions/TxDetailsAction.tsx:19-26 | in the description of any two-sided action, the first and seventh pieces are the verb and phrase of the table row of the action's `type` literal, and the connective is "for" exactly when that literal is "swap", "and" otherwise |
| ActionRenderer.ActionTextInjective | ui/tx/details/txDetailsActions/TxDetailsAction.tsx:19-26 | the verb/phrase table gives each of mint, burn, collect, swap its own verb and its own phrase, so either one identifies the type |
| ActionRenderer.Connective | ui/tx/details/txDetailsActions/TxDetailsAction.tsx:71 | the connective is "for" if and only if the type is swap, and "and" for the other three types |
| ActionRenderer.NativeCurrencyName | ui/tx/details/txDetailsActions/TxDetailsAction.tsx:41 | the native-currency token name is the configured symbol when that is set and non-empty, and null otherwise |
| ActionRenderer.SideToken | ui/tx/details/txDetailsActions/TxDetailsAction.tsx:39-52 | a side whose symbol is "Ether" gets an empty address, the native-currency name and no link; any other symbol gets its own address, its symbol as name, and a link |
| ActionRenderer.GeneralSegments | ui/tx/details/txDetailsActions/TxDetailsAction.tsx:32-93 | eight pieces: the table's verb, amount0 through the formatter, side-0 token reference, connective, amount1, side-1 token reference, the table's phrase, the "Uniswap V3" badge |
| ActionRenderer.GeneralLayout | ui/tx/details/txDetailsActions/TxDetailsAction.tsx:32-93 | a two-sided action renders exactly eight pieces: verb, amount0, token0, connective, amount1, token1, phrase, "Uniswap V3" badge |
| ActionRenderer.TypeChangesOnlyWords | ui/tx/details/txDetailsActions/TxDetailsAction.tsx:54-92 | for the same data, changing the type keeps the amounts, token references and badge; the verb and phrase change whenever the type does; the connective changes exactly when one type is swap and the other is not |
| ActionRenderer.GeneralHasNoBlocks | ui/tx/details/txDetailsActions/TxDetailsAction.tsx:54-92 | a two-sided action's description references no block |
| ActionRenderer.IdLine | ui/tx/details/txDetailsActions/TxDetailsAction.tsx:129-137 | one id line is a row keyed by `address + id` holding "1", "of token ID" and the NFT reference `(address, id)` |
| ActionRenderer.IdLines | ui/tx/details/txDetailsActions/TxDetailsAction.tsx:128-138 | the minted-ids list has one line per id, and line i is the keyed row for `ids[i]` |
| ActionRenderer.MintNftSegments | ui/tx/details/txDetailsActions/TxDetailsAction.tsx:96-142 | four header pieces ("Minted", linkable token reference `(address, name)`, "to", recipient address) followed by the id line of `ids[i]` at position 4 + i, for every i |
| ActionRenderer.HandleUniswapV3 | ui/tx/details/txDetailsActions/TxDetailsAction.tsx:28-147 | every Uniswap action gets a description: eight pieces ending in the badge for a two-sided action, four plus one per id starting with "Minted" for mint_nft |
| ActionRenderer.MintNftLayout | ui/tx/details/txDetailsActions/TxDetailsAction.tsx:96-142 | mint_nft renders "Minted", a linkable token reference to the collection address named by `name`, "to", the recipient's address, then exactly `|ids|` rows in input order; row i is keyed by `address + ids[i]` and holds "1", "of token ID" and the NFT reference `(address, ids[i])` |
| ActionRenderer.MintNftIgnoresSymbol | ui/tx/details/txDetailsActions/TxDetailsAction.tsx:97-103 | the collection's `symbol` has no effect on the mint_nft description |
| ActionRenderer.EntityHref | ui/tx/details/txDetailsActions/TxDetailsAction.tsx:152 | the entity link is the route `/golembase/entity/` followed by exactly the entity id |
| ActionRenderer.EntityHrefInjective | ui/tx/details/txDetailsActions/TxDetailsAction.tsx:151-153 | distinct entity ids link to distinct pages |
| ActionRenderer.HandleGolemBase | ui/tx/details/txDetailsActions/TxDetailsAction.tsx:149-195 | every ledger action gets a description whose second piece is the entity reference linking to the route followed by the entity id; it has two pieces for deleted, six for a lifetime extension and four otherwise |
| ActionRenderer.GolemBaseLayout | ui/tx/details/txDetailsActions/TxDetailsAction.tsx:155-191 | the full description of each ledger action: "Entity created:" / "Entity updated:", entity, "expiring at block", expiration block; "Entity deleted:", entity; "Entity lifetime extended:", entity, "from block", old block, "to block", new block |
| ActionRenderer.GolemBaseEntityReference | ui/tx/details/txDetailsActions/TxDetailsAction.tsx:149-191 | every ledger description has, as its second piece, the entity reference whose link is `"/golembase/entity/" + entity_id` |
| ActionRenderer.BlockNumbers | ui/tx/details/txDetailsActions/TxDetailsAction.tsx:156-191 | at most one number per piece; every listed number belongs to a block piece and every block piece's number is listed (order and multiplicity come from the definition, a left-to-right filter, and `BlockNumbersAppend` carries them through concatenation) |
| ActionRenderer.BlockNumbersAppend | ui/tx/details/txDetailsActions/TxDetailsAction.tsx:156-191 | the block references of a joined description are those of the first part followed by those of the second |
| ActionRenderer.BlockNumbersNone | ui/tx/details/txDetailsActions/TxDetailsAction.tsx:174-180 | a description without block pieces references no block |
| ActionRenderer.GolemBaseBlocks | ui/tx/details/txDetailsActions/TxDetailsAction.tsx:155-191 | created and updated reference exactly one block, the expiration block; deleted references none; a lifetime extension references the old block and then the new one, whatever their order as numbers |
| ActionRenderer.TxDetailsAction | ui/tx/details/txDetailsActions/TxDetailsAction.tsx:197-204 | dispatch is total: every action of the union gets a description, never the null fallback |
| ActionScenarios.SwapFromNativeCurrency | ui/tx/details/txDetailsActions/TxDetailsAction.tsx:32-93 | a swap of 1.5 Ether for 1000 USDC renders "Swapped", 1.5, an unlinked native-currency token, "for", 1000, a linked USDC token, "on", and the badge |
| ActionScenarios.TtlExtendedExample | ui/tx/details/txDetailsActions/TxDetailsAction.tsx:181-191 | extending entity 0xabc from block 100 to block 150 renders the full six-piece description |
| ActionScenarios.MintNftWithoutIds | ui/tx/details/txDetailsActions/TxDetailsAction.tsx:96-142 | a mint_nft with no ids renders only its four header pieces |

## Left out

- Layout and styling (`Flex`, `chakra.span` colours, sizes, `maxW`, `whiteSpace`) are presentation only. The model keeps the kinds of pieces and their order. The header of mint_nft and its rows are one flat sequence; the two `Flex` containers are not modelled.
- Display flags of the entity components other than `noLink` (`noCopy`, `noIcon`, `noSymbol`, `truncation`) are not modelled; for example, the ledger entity reference passes `noCopy={ false }` (ui/tx/details/txDetailsActions/TxDetailsAction.tsx:152) and the model does not record it.
- The constant fields of the token records (`type: 'ERC-20'`, `symbol: null`, `icon_url: null`) are left out because they are the same for every token.
- The entity components (`TokenEntity`, `AddressEntity`, `NftEntity`, `TxEntity`, `BlockEntity`) and `IconSvg` are foreign UI components. Only the arguments given to them appear, as the fields of `Segment`.
- `BigNumber(...).toFormat()` is a foreign decimal formatter. It is the parameter `formatAmount`, about which nothing is assumed.
- `config.chain.currency.symbol` is an external configuration lookup. It is the parameter `currencySymbol`.
- `React.memo` is an external memoisation layer. The renderer is a Dafny function, so equal inputs give equal outputs by construction.
- Block numbers are TypeScript `number` values (doubles); the model takes them as unbounded integers. Nothing validates them, nor the order of the old and new expiration blocks.
- ActionRenderer.TxDetailsAction: the `default: return null` arms and the missing protocol default cannot be reached, because the closed datatype admits no undeclared tag. Objects with unknown tags (schema skew) are therefore outside the model.
