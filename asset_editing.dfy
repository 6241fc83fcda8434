/** The asset edit dialog: which holdings are valued by unit price, the
    derived initial value, current value and profit or loss, the row it
    saves, and the form handlers that change its fields. */
module AssetEditing {
  import opened Common
  import opened Types

  /** An entry of the coin picker. */
  datatype Coin = Coin(id: string, name: string, symbol: string)

  /** The coins (and non-coin unit holdings) the picker offers, in order. */
  const PopularCoins: seq<Coin> := [
    Coin("none1", "Saham", "Saham"),
    Coin("none2", "Reksadana", "REKSADANA"),
    Coin("none3", "Emas", "EMAS"),
    Coin("bitcoin", "Bitcoin", "BTC"),
    Coin("ethereum", "Ethereum", "ETH"),
    Coin("binancecoin", "BNB", "BNB"),
    Coin("solana", "Solana", "SOL"),
    Coin("ripple", "XRP", "XRP"),
    Coin("polygon-ecosystem-token", "Polygon", "POL"),
    Coin("chainlink", "Chainlink", "LINK"),
    Coin("tether", "USDT", "USDT"),
    Coin("usd-coin", "USDC", "USDC"),
    Coin("aave", "Aave", "AAVE"),
    Coin("dai", "DAI", "DAI"),
    Coin("pax-gold", "PAX Gold", "PAXG"),
    Coin("tether-gold", "Tether Gold", "XAUT"),
    Coin("taiwan-semiconductor-manufacturing-ondo-tokenized-stock",
         "Taiwan Semiconductor Manufacturing (Ondo Tokenized Stock)", "TSMON"),
    Coin("alibaba-ondo-tokenized-stock", "Alibaba (Ondo Tokenized Stock)", "BABAON"),
    Coin("airbnb-ondo-tokenized-stock", "Airbnb (Ondo Tokenized Stock)", "ABNBON"),
    Coin("nvidia-ondo-tokenized-stock", "NVIDIA (Ondo Tokenized Stock)", "NVDAON"),
    Coin("amd-ondo-tokenized-stock", "AMD (Ondo Tokenized Stock)", "AMDON"),
    Coin("intel-ondo-tokenized-stock", "Intel (Ondo Tokenized Stock)", "INTCON"),
    Coin("amazon-ondo-tokenized-stock", "Amazon (Ondo Tokenized Stock)", "AMZNON"),
    Coin("apple-ondo-tokenized-stock", "Apple (Ondo Tokenized Stock)", "AAPLON")
  ]

  /** `coins.find(c => c.id === id)`: the first coin with that id, if any. */
  function FindCoin(coins: seq<Coin>, id: string): (r: Option<Coin>)
    ensures r.Some? ==> r.value in coins && r.value.id == id
    ensures r.Some? ==> exists i ::
      0 <= i < |coins| && coins[i] == r.value && forall j :: 0 <= j < i ==> coins[j].id != id
    ensures r.None? ==> forall i :: 0 <= i < |coins| ==> coins[i].id != id
  {
    if coins == [] then None
    else if coins[0].id == id then Some(coins[0])
    else FindCoin(coins[1..], id)
  }

  /** Whether the unit fields (coin, quantity, prices) apply: always for
      crypto and investments, and for a debt or receivable switched to
      crypto mode. */
  function ShowCryptoFields(kind: AssetType, isCryptoBased: bool): (r: bool)
    ensures kind == Crypto || kind == Investment ==> r
    ensures kind == SpendingAccount || kind == Cash || kind == Property || kind == Other ==> !r
    ensures kind == Debt || kind == Receivable ==> (r <==> isCryptoBased)
  {
    kind == Crypto || kind == Investment || ((kind == Debt || kind == Receivable) && isCryptoBased)
  }

  /** The cost basis: quantity x buy price rounded to a whole rupiah, or 0
      when either is 0. */
  function InitialValue(qty: real, buy: real): (r: real)
    ensures qty == 0.0 || buy == 0.0 ==> r == 0.0
    ensures qty != 0.0 && buy != 0.0 ==> qty * buy - 0.5 < r <= qty * buy + 0.5
    ensures r == r.Floor as real
  {
    if qty == 0.0 || buy == 0.0 then 0.0 else Round(qty * buy) as real
  }

  /** The value saved: in unit mode, quantity x current price rounded to a
      whole rupiah (0 when either is 0); otherwise the magnitude of the
      amount typed in, which is never negative. */
  function CurrentValue(showCrypto: bool, qty: real, current: real, manual: real): (r: real)
    ensures !showCrypto ==> r == Abs(manual) && r >= 0.0
    ensures showCrypto && (qty == 0.0 || current == 0.0) ==> r == 0.0
    ensures showCrypto && qty != 0.0 && current != 0.0 ==> qty * current - 0.5 < r <= qty * current + 0.5
    ensures showCrypto ==> r == r.Floor as real
  {
    if showCrypto then
      (if qty == 0.0 || current == 0.0 then 0.0 else Round(qty * current) as real)
    else
      Abs(manual)
  }

  /** The edit form's fields, as one value. */
  datatype FormState = FormState(
    kind: AssetType,
    isCryptoBased: bool,
    name: string,
    description: string,
    quantity: NumberField,
    buyPrice: NumberField,
    currentPrice: NumberField,
    manualValue: NumberField,
    coinId: string)

  function Shows(st: FormState): bool {
    ShowCryptoFields(st.kind, st.isCryptoBased)
  }

  function InitialOf(st: FormState): real {
    InitialValue(NumberOrZero(st.quantity), NumberOrZero(st.buyPrice))
  }

  function CurrentOf(st: FormState): real {
    CurrentValue(Shows(st), NumberOrZero(st.quantity), NumberOrZero(st.currentPrice), NumberOrZero(st.manualValue))
  }

  /** The profit or loss shown beside the current value. In unit mode it is
      quantity x (current price - buy price), off by at most one rupiah from
      the two roundings, and nothing when the price has not moved. */
  function ProfitLoss(st: FormState): (r: real)
    ensures var q := NumberOrZero(st.quantity);
      var b := NumberOrZero(st.buyPrice);
      var c := NumberOrZero(st.currentPrice);
      Shows(st) && q != 0.0 && b != 0.0 && c != 0.0 ==> q * c - q * b - 1.0 < r <= q * c - q * b + 1.0
    ensures Shows(st) && st.currentPrice == st.buyPrice ==> r == 0.0
  {
    assert Shows(st) ==>
      CurrentOf(st) == InitialValue(NumberOrZero(st.quantity), NumberOrZero(st.currentPrice));
    CurrentOf(st) - InitialOf(st)
  }

  /** 0.5 units bought at 500,000,000 and now at 600,000,000 cost 250,000,000,
      are worth 300,000,000 and show a profit of 50,000,000. */
  lemma ScenarioValuation(st: FormState)
    requires st.kind == Crypto
    requires st.quantity == Typed(0.5) && st.buyPrice == Typed(500000000.0)
    requires st.currentPrice == Typed(600000000.0)
    ensures InitialOf(st) == 250000000.0
    ensures CurrentOf(st) == 300000000.0
    ensures ProfitLoss(st) == 50000000.0
  {
  }

  /** The columns `handleSubmit` writes to the asset row. */
  datatype AssetPayload = AssetPayload(
    name: string,
    kind: AssetType,
    description: Option<string>,
    quantity: Option<real>,
    buyPrice: Option<real>,
    currentPrice: Option<real>,
    initialValue: Option<real>,
    value: real,
    coinId: Option<string>,
    updatedAt: string)

  /** `x || null` for a number. */
  function NonZero(x: real): Option<real> {
    if x == 0.0 then None else Some(x)
  }

  /** The payload saved from form state `st` at time `now`. */
  function PayloadOf(st: FormState, now: string): AssetPayload {
    var show := Shows(st);
    AssetPayload(
      st.name,
      st.kind,
      if st.description == "" then None else Some(st.description),
      if show then Some(NumberOrZero(st.quantity)) else None,
      if show then NonZero(NumberOrZero(st.buyPrice)) else None,
      if show then NonZero(NumberOrZero(st.currentPrice)) else None,
      if show then Some(InitialOf(st)) else None,
      CurrentOf(st),
      if show then Some(st.coinId) else None,
      now)
  }

  /** Outside unit mode every unit column is saved as null and the value is
      the magnitude of the amount typed in. */
  lemma PayloadOutsideUnitMode(st: FormState, now: string)
    requires !Shows(st)
    ensures var p := PayloadOf(st, now);
      && p.quantity.None? && p.buyPrice.None? && p.currentPrice.None?
      && p.initialValue.None? && p.coinId.None?
      && p.value == Abs(NumberOrZero(st.manualValue)) && p.value >= 0.0
  {
  }

  /** In unit mode the quantity, cost basis and coin are saved; a price of 0
      is saved as null; the value is quantity x current price rounded. */
  lemma PayloadInUnitMode(st: FormState, now: string)
    requires Shows(st)
    ensures var p := PayloadOf(st, now);
      && p.quantity == Some(NumberOrZero(st.quantity))
      && (p.buyPrice.None? <==> NumberOrZero(st.buyPrice) == 0.0)
      && (p.currentPrice.None? <==> NumberOrZero(st.currentPrice) == 0.0)
      && p.initialValue == Some(InitialOf(st))
      && p.coinId == Some(st.coinId)
      && p.value == p.value.Floor as real
      && (p.currentPrice.None? ==> p.value == 0.0)
  {
  }

  /** The holding as stored after `p` is written over `a`. */
  function Saved(a: Asset, p: AssetPayload): Asset {
    a.(name := p.name, kind := p.kind, description := p.description, quantity := p.quantity,
       buyPrice := p.buyPrice, currentPrice := p.currentPrice, value := p.value,
       coinId := p.coinId, updatedAt := p.updatedAt)
  }

  /** Saving and reopening keeps the mode, provided a debt or receivable in
      unit mode has a coin chosen: the mode is re-derived from the coin. */
  lemma ReopenKeepsMode(a: Asset, st: FormState, now: string)
    requires Shows(st) && (st.kind == Debt || st.kind == Receivable) ==> st.coinId != ""
    ensures var b := Saved(a, PayloadOf(st, now));
      ShowCryptoFields(b.kind, HasCoin(b)) == Shows(st)
  {
  }

  /** A debt switched to unit mode but saved with no coin chosen reopens in
      rupiah mode: the mode is not stored apart from the coin. */
  lemma ReopenLosesModeWithoutCoin(a: Asset, st: FormState, now: string)
    requires st.kind == Debt && st.isCryptoBased && st.coinId == ""
    ensures Shows(st)
    ensures var b := Saved(a, PayloadOf(st, now));
      !ShowCryptoFields(b.kind, HasCoin(b))
  {
  }

  /** The name prefix a coin selection uses: "Pinjaman" (loan) for a debt,
      "Piutang" (receivable) for a receivable, none otherwise. */
  function CoinPrefix(kind: AssetType): string {
    if kind == Debt then "Pinjaman" else if kind == Receivable then "Piutang" else ""
  }

  /** "<coin> (<symbol>)", as the picker lists a coin. */
  function CoinLabel(coin: Coin): string {
    coin.name + " (" + coin.symbol + ")"
  }

  /** The name a coin selection gives the holding. */
  function CoinName(kind: AssetType, coin: Coin): string {
    Trim(CoinPrefix(kind) + " " + CoinLabel(coin))
  }

  /** For a coin whose name starts with a letter, the name is
      "<prefix> <coin> (<symbol>)", or "<coin> (<symbol>)" without a prefix. */
  lemma CoinNameShape(kind: AssetType, coin: Coin)
    requires coin.name != [] && 'A' <= coin.name[0] <= 'Z'
    ensures CoinName(kind, coin)
         == (if CoinPrefix(kind) == "" then "" else CoinPrefix(kind) + " ") + CoinLabel(coin)
  {
    var rest := CoinLabel(coin);
    assert rest[0] == coin.name[0];
    assert !IsWhitespace(rest[0]);
    assert rest[|rest| - 1] == ')';
    var s := CoinPrefix(kind) + " " + rest;
    if CoinPrefix(kind) == "" {
      assert s == [' '] + rest;
      TrimLeadingSpace(rest);
    } else {
      assert s[0] == 'P' && s[|s| - 1] == ')';
      TrimUnpadded(s);
    }
  }

  /** `x?.toString() ?? ""`: how a stored number fills a form field. */
  function FieldOf(x: Option<real>): (f: NumberField)
    ensures NumberOrZero(f) == x.GetOr(0.0)
  {
    if x.Some? then Typed(x.value) else Blank
  }

  /** The edit dialog's form, whose fields the handlers change. */
  class EditAssetForm {
    var kind: AssetType
    var isCryptoBased: bool
    var name: string
    var description: string
    var quantity: NumberField
    var buyPrice: NumberField
    var currentPrice: NumberField
    var manualValue: NumberField
    var coinId: string
    /** The coins the picker offers. */
    const coins: seq<Coin>

    constructor ()
      ensures State() == FormState(Cash, false, "", "", Blank, Blank, Blank, Blank, "")
      ensures coins == PopularCoins
    {
      coins := PopularCoins;
      kind := Cash;
      isCryptoBased := false;
      name := "";
      description := "";
      quantity := Blank;
      buyPrice := Blank;
      currentPrice := Blank;
      manualValue := Blank;
      coinId := "";
    }

    function State(): FormState
      reads this
    {
      FormState(kind, isCryptoBased, name, description, quantity, buyPrice, currentPrice, manualValue, coinId)
    }

    /** The effect that loads the holding into the form when the dialog
        opens; unit mode is switched on exactly when the holding has a coin,
        so the mode shown is the one re-derived from the stored coin. */
    method Open(asset: Asset, open: bool)
      modifies this
      ensures !open ==> State() == old(State())
      ensures open ==> State() == FormState(asset.kind, HasCoin(asset), asset.name,
        asset.description.GetOr(""), FieldOf(asset.quantity), FieldOf(asset.buyPrice),
        FieldOf(asset.currentPrice), Typed(asset.value), asset.coinId.GetOr(""))
      ensures open ==> Shows(State()) == ShowCryptoFields(asset.kind, HasCoin(asset))
    {
      if !open {
        return;
      }
      kind := asset.kind;
      name := asset.name;
      description := asset.description.GetOr("");
      quantity := FieldOf(asset.quantity);
      buyPrice := FieldOf(asset.buyPrice);
      currentPrice := FieldOf(asset.currentPrice);
      manualValue := Typed(asset.value);
      coinId := asset.coinId.GetOr("");
      isCryptoBased := HasCoin(asset);
    }

    /** Choosing another type; unit mode is cleared unless the new type is a
        debt or a receivable. */
    method ChangeType(v: AssetType)
      modifies this
      ensures State() == old(State()).(kind := v,
        isCryptoBased := old(isCryptoBased) && (v == Debt || v == Receivable))
      ensures Shows(State()) ==> v == Crypto || v == Investment || old(isCryptoBased)
    {
      kind := v;
      if v != Debt && v != Receivable {
        isCryptoBased := false;
      }
    }

    /** The unit-mode checkbox shown for debts and receivables. */
    method SetCryptoBased(checked: bool)
      modifies this
      ensures State() == old(State()).(isCryptoBased := checked)
    {
      isCryptoBased := checked;
    }

    /** `handleCoinSelect`: the coin is recorded, and a listed coin also
        renames the holding; an unlisted id changes nothing else. */
    method SelectCoin(id: string)
      modifies this
      ensures FindCoin(coins, id).Some? ==>
        State() == old(State()).(coinId := id, name := CoinName(kind, FindCoin(coins, id).value))
      ensures FindCoin(coins, id).None? ==> State() == old(State()).(coinId := id)
    {
      coinId := id;
      var coin := FindCoin(coins, id);
      if coin.Some? {
        name := CoinName(kind, coin.value);
      }
    }

    /** The part of `fetchCryptoPrice` that touches the form: with a coin
        chosen, a truthy price from the feed replaces the current price; no
        coin, no price or a failed request leaves the form as it was. */
    method ApplyFetchedPrice(price: Option<real>)
      modifies this
      ensures coinId != "" && price.Some? && price.value != 0.0 ==>
        State() == old(State()).(currentPrice := Typed(price.value))
      ensures !(coinId != "" && price.Some? && price.value != 0.0) ==> State() == old(State())
    {
      if coinId == "" {
        return;
      }
      if price.Some? && price.value != 0.0 {
        currentPrice := Typed(price.value);
      }
    }

    /** The row `handleSubmit` saves. */
    function Payload(now: string): AssetPayload
      reads this
    {
      PayloadOf(State(), now)
    }
  }
}
