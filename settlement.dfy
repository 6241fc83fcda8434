/** Settling a debt or a receivable: the payment dialog computes the amount
    paid and the holding's new balance (in rupiah, or in coin units for a
    holding linked to a coin), writes the holding, and then, if asked to,
    appends a ledger entry for the payment. */
module DebtSettlement {
  import opened Common
  import opened Types

  /** "partial" (an instalment) or "full" (settle the remaining balance). */
  datatype PaymentType = Partial | Full

  /** Whether a partial payment is entered in rupiah ("idr") or in coin units ("qty"). */
  datatype UpdateMode = ByRupiah | ByUnits

  /** What the dialog computes before writing: the amount paid in rupiah and
      the holding's new quantity and value. */
  datatype Settlement = Settlement(payAmount: real, newQuantity: real, newValue: real)

  /** `Number(asset.quantity) || 0`. */
  function CurrentQuantity(a: Asset): real {
    a.quantity.GetOr(0.0)
  }

  /** `asset.current_price ? Number(asset.current_price) : 0`. */
  function UnitPrice(a: Asset): real {
    a.currentPrice.GetOr(0.0)
  }

  /** The settlement rule. `value`, `quantity` and `price` are the holding's
      current value, quantity and unit price; `input` is the amount typed in,
      read as rupiah or as units according to `mode`. Whatever is paid, the
      new value is never negative, and neither is the new quantity when the
      current one is not. */
  function Compute(payment: PaymentType, mode: UpdateMode, coinBased: bool,
                   value: real, quantity: real, price: real, input: real): (s: Settlement)
    ensures s.newValue >= 0.0
    ensures quantity >= 0.0 ==> s.newQuantity >= 0.0
  {
    if payment == Full then
      Settlement(value, 0.0, 0.0)
    else if mode == ByUnits && price > 0.0 then
      var q := Max0(quantity - input);
      Settlement(input * price, q, q * price)
    else
      var v := Max0(value - input);
      Settlement(input, if coinBased && price > 0.0 then v / price else quantity, v)
  }

  /** A full payment pays the whole remaining value and clears the holding. */
  lemma FullPaymentClears(mode: UpdateMode, coinBased: bool, value: real, quantity: real, price: real, input: real)
    ensures var s := Compute(Full, mode, coinBased, value, quantity, price, input);
      s.payAmount == value && s.newQuantity == 0.0 && s.newValue == 0.0
  {
  }

  /** A partial payment in rupiah (or in units when there is no price): the
      amount paid is the input, not capped at the balance; the balance drops
      by the input and stops at 0; a coin-based holding keeps
      quantity x price == value, any other holding keeps its quantity. */
  lemma RupiahPayment(mode: UpdateMode, coinBased: bool, value: real, quantity: real, price: real, input: real)
    requires !(mode == ByUnits && price > 0.0)
    ensures var s := Compute(Partial, mode, coinBased, value, quantity, price, input);
      && s.payAmount == input
      && s.newValue == Max0(value - input)
      && (input >= value ==> s.newValue == 0.0)
      && (input <= value ==> s.newValue == value - input)
      && (coinBased && price > 0.0 ==> s.newQuantity * price == s.newValue)
      && (!(coinBased && price > 0.0) ==> s.newQuantity == quantity)
  {
    var s := Compute(Partial, mode, coinBased, value, quantity, price, input);
    if coinBased && price > 0.0 {
      assert s.newQuantity == s.newValue / price;
      assert (s.newValue / price) * price == s.newValue;
    }
  }

  /** A partial payment in units, at a positive unit price: the amount paid
      is input x price (not capped), the quantity drops by the input and
      stops at 0, and the value is the new quantity at the unit price. */
  lemma UnitsPayment(coinBased: bool, value: real, quantity: real, price: real, input: real)
    requires price > 0.0
    ensures var s := Compute(Partial, ByUnits, coinBased, value, quantity, price, input);
      && s.payAmount == input * price
      && s.newQuantity == Max0(quantity - input)
      && s.newValue == s.newQuantity * price
      && (input >= quantity ==> s.newQuantity == 0.0 && s.newValue == 0.0)
  {
  }

  /** With no positive unit price, a payment entered in units is read as rupiah. */
  lemma UnitsWithoutPriceAreRupiah(coinBased: bool, value: real, quantity: real, price: real, input: real)
    requires price <= 0.0
    ensures Compute(Partial, ByUnits, coinBased, value, quantity, price, input)
         == Compute(Partial, ByRupiah, coinBased, value, quantity, price, input)
  {
  }

  /** When the stored value is quantity x price, paying `u` units and paying
      `u x price` rupiah are the same payment: the same amount paid and the
      same new value, and for a coin-based holding the same new quantity. */
  lemma UnitsAgreeWithRupiah(coinBased: bool, quantity: real, price: real, u: real)
    requires price > 0.0
    ensures var byUnits := Compute(Partial, ByUnits, coinBased, quantity * price, quantity, price, u);
      var byRupiah := Compute(Partial, ByRupiah, coinBased, quantity * price, quantity, price, u * price);
      && byUnits.payAmount == byRupiah.payAmount
      && byUnits.newValue == byRupiah.newValue
      && (coinBased ==> byUnits == byRupiah)
  {
    var d := quantity - u;
    assert quantity * price - u * price == d * price;
    ScaleMax0(d, price);
    assert Max0(d * price) / price == Max0(d);
  }

  /** Clamping at 0 commutes with scaling by a positive price. */
  lemma ScaleMax0(d: real, price: real)
    requires price > 0.0
    ensures Max0(d * price) == Max0(d) * price
  {
    if d > 0.0 {
      assert d * price > 0.0;
    } else {
      assert d * price <= 0.0;
    }
  }

  /** The text of the ledger entry: "Bayar" (pay) for a debt, "Terima"
      (receive) otherwise; then the holding's name; then "Lunas" (settled)
      or "Cicil" (instalment). */
  function Description(isDebt: bool, name: string, payment: PaymentType): string {
    (if isDebt then "Bayar" else "Terima") + " " + name + " ("
      + (if payment == Full then "Lunas" else "Cicil") + ")"
  }

  /** The description tells apart the direction, the holding's name and the
      payment type: two entries with the same text agree on all three. */
  lemma DescriptionInjective(d1: bool, n1: string, p1: PaymentType, d2: bool, n2: string, p2: PaymentType)
    requires Description(d1, n1, p1) == Description(d2, n2, p2)
    ensures d1 == d2 && n1 == n2 && p1 == p2
  {
    var s := Description(d1, n1, p1);
    var head1 := (if d1 then "Bayar" else "Terima") + " ";
    var head2 := (if d2 then "Bayar" else "Terima") + " ";
    var tail1 := " (" + (if p1 == Full then "Lunas" else "Cicil") + ")";
    var tail2 := " (" + (if p2 == Full then "Lunas" else "Cicil") + ")";
    assert s == head1 + n1 + tail1;
    assert s == head2 + n2 + tail2;
    assert s[0] == head1[0] && s[0] == head2[0];
    assert d1 == d2;
    assert |tail1| == 8 && |tail2| == 8;
    assert s[|s| - 6] == tail1[2] && s[|s| - 6] == tail2[2];
    assert p1 == p2;
    assert n1 == s[|head1|..|s| - 8];
    assert n2 == s[|head2|..|s| - 8];
  }

  /** The row `handleUpdate` appends to the transactions table. */
  datatype LedgerEntry = LedgerEntry(
    userId: string,
    kind: TxType,
    amount: real,
    categoryId: Option<string>,
    description: string,
    date: string)

  /** The ledger entry for a payment against holding `a`. */
  function EntryFor(a: Asset, userId: string, payment: PaymentType, payAmount: real,
                    categoryId: string, today: string): LedgerEntry {
    LedgerEntry(
      userId,
      if a.kind == Debt then Expense else Income,
      payAmount,
      if categoryId == "" then None else Some(categoryId),
      Description(a.kind == Debt, a.name, payment),
      today)
  }

  /** The entry written for a settlement of holding `a`: paying a debt is an
      expense and collecting anything else is income, and the amount recorded
      is what `Compute` says was paid — the whole value for a full payment,
      the input for a partial payment in rupiah, and input x price for a
      partial payment in units at a positive price. */
  lemma EntryDirection(a: Asset, userId: string, payment: PaymentType, mode: UpdateMode,
                       input: real, categoryId: string, today: string)
    ensures var s := Compute(payment, mode, HasCoin(a), a.value, CurrentQuantity(a), UnitPrice(a), input);
      var e := EntryFor(a, userId, payment, s.payAmount, categoryId, today);
      && (e.kind == Expense <==> a.kind == Debt)
      && (payment == Full ==> e.amount == a.value)
      && (payment == Partial && !(mode == ByUnits && UnitPrice(a) > 0.0) ==> e.amount == input)
      && (payment == Partial && mode == ByUnits && UnitPrice(a) > 0.0 ==> e.amount == input * UnitPrice(a))
  {
    var s := Compute(payment, mode, HasCoin(a), a.value, CurrentQuantity(a), UnitPrice(a), input);
    if payment == Full {
      FullPaymentClears(mode, HasCoin(a), a.value, CurrentQuantity(a), UnitPrice(a), input);
    } else if mode == ByUnits && UnitPrice(a) > 0.0 {
      UnitsPayment(HasCoin(a), a.value, CurrentQuantity(a), UnitPrice(a), input);
    } else {
      RupiahPayment(mode, HasCoin(a), a.value, CurrentQuantity(a), UnitPrice(a), input);
    }
  }

  /** The mode a partial payment starts in when the dialog opens: units
      exactly when the holding is linked to a coin. */
  function DefaultMode(a: Asset): UpdateMode {
    if HasCoin(a) then ByUnits else ByRupiah
  }

  /** The confirm button is disabled while saving, for a partial payment with
      no amount, and when recording with no category chosen. */
  function ConfirmDisabled(loading: bool, payment: PaymentType, amount: NumberField,
                           record: bool, categoryId: string): bool {
    loading || (payment == Partial && !Filled(amount)) || (record && categoryId == "")
  }

  /** Whenever the button can be pressed with recording on, the entry it
      writes carries the chosen category; a partial payment has an amount. */
  lemma ConfirmEnabledHasCategory(payment: PaymentType, amount: NumberField, categoryId: string,
                                  a: Asset, userId: string, payAmount: real, today: string)
    requires !ConfirmDisabled(false, payment, amount, true, categoryId)
    ensures EntryFor(a, userId, payment, payAmount, categoryId, today).categoryId == Some(categoryId)
    ensures payment == Partial ==> amount.Typed?
  {
  }

  /** The holdings after the row with key `id` has its value, quantity and
      timestamp rewritten; a missing row is left missing. */
  function Patched(assets: map<string, Asset>, id: string, value: real, quantity: Option<real>,
                   updatedAt: string): (r: map<string, Asset>)
    ensures r.Keys == assets.Keys
    ensures forall k :: k in assets && k != id ==> r[k] == assets[k]
    ensures id in assets ==> r[id].value == value && r[id].quantity == quantity && r[id].updatedAt == updatedAt
    ensures id in assets ==> r[id] == assets[id].(value := value, quantity := quantity, updatedAt := updatedAt)
  {
    if id in assets then
      assets[id := assets[id].(value := value, quantity := quantity, updatedAt := updatedAt)]
    else
      assets
  }

  /** The data store as settlement sees it: the holdings by key, and the
      transactions in insertion order. Whether a write fails is the store's
      answer, passed in as `fails`. */
  class Store {
    var assets: map<string, Asset>
    var transactions: seq<LedgerEntry>

    constructor (assets: map<string, Asset>, transactions: seq<LedgerEntry>)
      ensures this.assets == assets && this.transactions == transactions
    {
      this.assets := assets;
      this.transactions := transactions;
    }

    /** `update({ value, quantity, updated_at }).eq("id", id)`. */
    method UpdateAsset(id: string, value: real, quantity: Option<real>, updatedAt: string, fails: bool)
      returns (error: bool)
      modifies this
      ensures error == fails
      ensures assets == if fails then old(assets) else Patched(old(assets), id, value, quantity, updatedAt)
      ensures transactions == old(transactions)
    {
      error := fails;
      if !fails && id in assets {
        assets := assets[id := assets[id].(value := value, quantity := quantity, updatedAt := updatedAt)];
      }
    }

    /** `from("transactions").insert(entry)`. */
    method InsertTransaction(entry: LedgerEntry, fails: bool) returns (error: bool)
      modifies this
      ensures error == fails
      ensures transactions == if fails then old(transactions) else old(transactions) + [entry]
      ensures assets == old(assets)
    {
      error := fails;
      if !fails {
        transactions := transactions + [entry];
      }
    }
  }

  /** How `handleUpdate` ends: saved, or the step at which it stopped. */
  datatype Outcome = Saved | NoSession | AssetWriteFailed | LedgerWriteFailed

  /** The payment dialog for one debt or receivable, with its form state. */
  class DebtDialog {
    const asset: Asset
    var amount: NumberField
    var updateMode: UpdateMode
    var paymentType: PaymentType
    var recordTransaction: bool
    var categoryId: string

    constructor (asset: Asset)
      ensures this.asset == asset
      ensures amount == Blank && updateMode == ByRupiah && paymentType == Partial
      ensures recordTransaction && categoryId == ""
    {
      this.asset := asset;
      amount := Blank;
      updateMode := ByRupiah;
      paymentType := Partial;
      recordTransaction := true;
      categoryId := "";
    }

    /** The effect that runs when the dialog opens: the amount is cleared and
        the input mode is reset; the other choices are kept. */
    method Open()
      modifies this
      ensures amount == Blank && updateMode == DefaultMode(asset)
      ensures paymentType == old(paymentType) && recordTransaction == old(recordTransaction)
      ensures categoryId == old(categoryId)
    {
      amount := Blank;
      updateMode := if HasCoin(asset) then ByUnits else ByRupiah;
    }

    /** The settlement the current form state describes. */
    function Pending(): Settlement
      reads this
    {
      Compute(paymentType, updateMode, HasCoin(asset), asset.value, CurrentQuantity(asset),
              UnitPrice(asset), NumberOrZero(amount))
    }

    /** `handleUpdate`: compute the settlement, write the holding, then
        append the ledger entry if recording is on. A failed holding write
        stops before the entry; a failed entry leaves the holding written
        (nothing is rolled back). */
    method HandleUpdate(store: Store, user: Option<string>, now: string, today: string,
                        assetWriteFails: bool, ledgerWriteFails: bool)
      returns (outcome: Outcome)
      modifies store
      ensures user.None? ==> outcome == NoSession
      ensures user.None? || assetWriteFails ==>
        store.assets == old(store.assets) && store.transactions == old(store.transactions)
      ensures user.Some? && assetWriteFails ==> outcome == AssetWriteFailed
      ensures user.Some? && !assetWriteFails ==>
        store.assets == Patched(old(store.assets), asset.id, Pending().newValue,
                                if HasCoin(asset) then Some(Pending().newQuantity) else None, now)
      ensures user.Some? && !assetWriteFails && !recordTransaction ==>
        outcome == Saved && store.transactions == old(store.transactions)
      ensures user.Some? && !assetWriteFails && recordTransaction ==>
        && outcome == (if ledgerWriteFails then LedgerWriteFailed else Saved)
        && store.transactions == old(store.transactions)
             + (if ledgerWriteFails then []
                else [EntryFor(asset, user.value, paymentType, Pending().payAmount, categoryId, today)])
    {
      if user.None? {
        return NoSession;
      }
      var currentVal := asset.value;
      var currentQty := CurrentQuantity(asset);
      var pricePerCoin := UnitPrice(asset);
      var isCryptoBased := HasCoin(asset);

      var payAmount := 0.0;
      var newQty := currentQty;
      var newValue := currentVal;

      if paymentType == Full {
        payAmount := currentVal;
        newQty := 0.0;
        newValue := 0.0;
      } else {
        var inputNum := NumberOrZero(amount);
        if updateMode == ByUnits && pricePerCoin > 0.0 {
          payAmount := inputNum * pricePerCoin;
          newQty := Max0(currentQty - inputNum);
          newValue := newQty * pricePerCoin;
        } else {
          payAmount := inputNum;
          newValue := Max0(currentVal - inputNum);
          if isCryptoBased && pricePerCoin > 0.0 {
            newQty := newValue / pricePerCoin;
          }
        }
      }
      assert Settlement(payAmount, newQty, newValue) == Pending();

      var assetError := store.UpdateAsset(asset.id, newValue, if isCryptoBased then Some(newQty) else None,
                                          now, assetWriteFails);
      if assetError {
        return AssetWriteFailed;
      }

      if recordTransaction {
        var entry := LedgerEntry(
          user.value,
          if asset.kind == Debt then Expense else Income,
          payAmount,
          if categoryId == "" then None else Some(categoryId),
          Description(asset.kind == Debt, asset.name, paymentType),
          today);
        var transError := store.InsertTransaction(entry, ledgerWriteFails);
        if transError {
          return LedgerWriteFailed;
        }
      }
      return Saved;
    }
  }

  /** A debt of 1,000,000 paid in full goes to 0 and is recorded as an
      expense of 1,000,000. */
  lemma ScenarioFullDebt(a: Asset, userId: string, categoryId: string, today: string)
    requires a.kind == Debt && a.value == 1000000.0 && !HasCoin(a)
    ensures var s := Compute(Full, DefaultMode(a), HasCoin(a), a.value, CurrentQuantity(a), UnitPrice(a), 0.0);
      && s.newValue == 0.0
      && EntryFor(a, userId, Full, s.payAmount, categoryId, today).kind == Expense
      && EntryFor(a, userId, Full, s.payAmount, categoryId, today).amount == 1000000.0
  {
  }

  /** A receivable of 200,000 paid 50,000 in rupiah goes to 150,000 and is
      recorded as income of 50,000 in the chosen category. */
  lemma ScenarioPartialReceivable(a: Asset, userId: string, today: string)
    requires a.kind == Receivable && a.value == 200000.0 && !HasCoin(a)
    ensures var s := Compute(Partial, ByRupiah, HasCoin(a), a.value, CurrentQuantity(a), UnitPrice(a), 50000.0);
      var e := EntryFor(a, userId, Partial, s.payAmount, "C", today);
      && s.newValue == 150000.0
      && e.kind == Income && e.amount == 50000.0 && e.categoryId == Some("C")
  {
  }

  /** A debt of 2 coins at 30,000,000 each, paid 0.5 coin: 15,000,000 is
      paid, 1.5 coins worth 45,000,000 remain. */
  lemma ScenarioUnitDebt()
    ensures Compute(Partial, ByUnits, true, 60000000.0, 2.0, 30000000.0, 0.5)
         == Settlement(15000000.0, 1.5, 45000000.0)
  {
  }
}
