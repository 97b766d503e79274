/** Worked examples of the renderer on concrete actions. */
module ActionScenarios {

  import opened Wrappers
  import opened ActionModel
  import opened ActionRenderer

  /** A swap from the native currency into USDC; the formatter is the identity here. */
  lemma SwapFromNativeCurrency(currencySymbol: Option<string>)
    ensures var a := UniswapV3(General(Swap, GeneralData("1.5", "Ether", "", "1000", "USDC", "0xA0b8")));
      TxDetailsAction(a, s => s, currencySymbol) == Some([
        Text("Swapped"), Amount("1.5"), Token(TokenRef("", NativeCurrencyName(currencySymbol), false)),
        Text("for"), Amount("1000"), Token(TokenRef("0xA0b8", Some("USDC"), true)),
        Text("on"), Badge("uniswap", "Uniswap V3")])
  {
  }

  /** A lifetime extension from block 100 to block 150. */
  lemma TtlExtendedExample(formatAmount: string -> string, currencySymbol: Option<string>)
    ensures TxDetailsAction(GolemBase(EntityTtlExtended("0xabc", 100, 150)), formatAmount, currencySymbol)
      == Some([Text("Entity lifetime extended:"), Entity("0xabc", "/golembase/entity/0xabc"),
               Text("from block"), Block(100), Text("to block"), Block(150)])
  {
    assert EntityHref("0xabc") == "/golembase/entity/0xabc";
  }

  /** A `mint_nft` with no ids renders the header and no id line. */
  lemma MintNftWithoutIds(formatAmount: string -> string, currencySymbol: Option<string>)
    ensures TxDetailsAction(UniswapV3(MintNft(NftData("Cats", "CAT", "0x1", "0x2", []))), formatAmount, currencySymbol)
      == Some([Text("Minted"), Token(TokenRef("0x1", Some("Cats"), true)), Text("to"), Address("0x2")])
  {
    var n := NftData("Cats", "CAT", "0x1", "0x2", []);
    assert IdLines(n.address, n.ids) == [];
    var header := [Text("Minted"), Token(TokenRef("0x1", Some("Cats"), true)), Text("to"), Address("0x2")];
    assert MintNftSegments(n) == header + [];
    assert header + [] == header;
    assert TxDetailsAction(UniswapV3(MintNft(n)), formatAmount, currencySymbol) == Some(MintNftSegments(n));
  }
}
