/**
 * The receipt-details screen: the list of expanded receipts and its toggle,
 * the fetch outcome, and the render branch.
 */
module ReceiptDetails {
  import opened Wrappers
  import opened JsArray
  import opened Gateway
  import opened Navigation

  const NoReceipts := "No receipt details found"
  const LoadFailed := "Failed to load receipt details. Please try again."

  /** A row of the receipt endpoint (null text read as "", null amount as 0). */
  datatype Receipt = Receipt(
    sno: int, amount: int, recDate: string, stage: string, modeOfCash: string, refNo: string)

  /**
   * `expandedReceipts.filter(id => id !== sno)`. The contract states
   * membership; `Filter`'s own contract gives the multiplicities and
   * `RemoveKeepsOrder` the order.
   */
  function RemoveAll(expanded: seq<int>, sno: int): (r: seq<int>)
    ensures sno !in r
    ensures forall k :: 0 <= k < |r| ==> r[k] in expanded
    ensures forall k :: 0 <= k < |expanded| && expanded[k] != sno ==> expanded[k] in r
  {
    Filter(expanded, (id: int) => id != sno)
  }

  /** `toggleReceipt(sno)`: drop every occurrence of a present number, append an absent one. */
  function Toggled(expanded: seq<int>, sno: int): (r: seq<int>)
    ensures sno in expanded ==> r == RemoveAll(expanded, sno)
    ensures sno !in expanded ==> r == expanded + [sno]
    ensures sno in r <==> sno !in expanded
  {
    if sno in expanded then RemoveAll(expanded, sno) else expanded + [sno]
  }

  /** Removing a present number keeps the other numbers in their order. */
  lemma RemoveKeepsOrder(expanded: seq<int>, sno: int)
    ensures IsSubsequence(RemoveAll(expanded, sno), expanded)
  {
    FilterIsSubsequence(expanded, (id: int) => id != sno);
  }

  /** Toggling an absent number twice restores the list. */
  lemma ToggleTwiceAbsent(expanded: seq<int>, sno: int)
    requires sno !in expanded
    ensures Toggled(Toggled(expanded, sno), sno) == expanded
  {
    FilterAppend(expanded, [sno], (id: int) => id != sno);
    assert Filter([sno], (id: int) => id != sno) == [];
  }

  /** A list without duplicates has none after a toggle. */
  lemma ToggleKeepsDistinct(expanded: seq<int>, sno: int)
    requires Distinct(expanded)
    ensures Distinct(Toggled(expanded, sno))
  {
    if sno in expanded {
      FilterKeepsDistinct(expanded, (id: int) => id != sno);
    }
  }

  /** A receipt card: its body is shown iff its number is expanded. */
  datatype ReceiptCard = ReceiptCard(receipt: Receipt, expanded: bool)

  datatype ReceiptsView =
    | Spinner
    | ErrorView(message: string)
    | NoRecords          // 'No receipt records found'
    | List(title: string, cards: seq<ReceiptCard>)

  function Cards(receipts: seq<Receipt>, expanded: seq<int>): (cards: seq<ReceiptCard>)
    ensures |cards| == |receipts|
    ensures forall k :: 0 <= k < |receipts| ==> cards[k].receipt == receipts[k]
    ensures forall k :: 0 <= k < |receipts| ==> (cards[k].expanded <==> receipts[k].sno in expanded)
  {
    seq(|receipts|, k requires 0 <= k < |receipts| => ReceiptCard(receipts[k], receipts[k].sno in expanded))
  }

  class ReceiptDetailsScreen {
    const params: ReceiptParams
    var receipts: seq<Receipt>
    var loading: bool
    var error: Option<string>
    var expandedReceipts: seq<int>

    /** Once loading ends, an error or a non-empty list is there. */
    ghost predicate Valid()
      reads this
    {
      loading || error.Some? || |receipts| > 0
    }

    constructor (params: ReceiptParams)
      ensures this.params == params
      ensures receipts == [] && loading && error == None && expandedReceipts == []
      ensures Valid()
    {
      this.params := params;
      receipts := [];
      loading := true;
      error := None;
      expandedReceipts := [];
    }

    /** The fetch effect, with `response` the gateway's answer. */
    method Load(response: Fetch<Receipt>)
      requires Valid()
      modifies this
      ensures Valid() && !loading
      ensures response.Returned? && |response.rows| > 0 ==>
                receipts == response.rows && error == old(error)
      ensures response.Returned? && |response.rows| == 0 ==>
                receipts == old(receipts) && error == Some(NoReceipts)
      ensures response.Thrown? ==> receipts == old(receipts) && error == Some(LoadFailed)
      ensures expandedReceipts == old(expandedReceipts)
    {
      match response {
        case Returned(rows) =>
          if |rows| > 0 {
            receipts := rows;
          } else {
            error := Some(NoReceipts);
          }
        case Thrown =>
          error := Some(LoadFailed);
      }
      loading := false;
    }

    method ToggleReceipt(sno: int)
      modifies this
      ensures expandedReceipts == Toggled(old(expandedReceipts), sno)
      ensures receipts == old(receipts) && loading == old(loading) && error == old(error)
    {
      if sno in expandedReceipts {
        expandedReceipts := RemoveAll(expandedReceipts, sno);
      } else {
        expandedReceipts := expandedReceipts + [sno];
      }
    }

    /** The render branches, checked in order: loading, error, empty list, cards. */
    function Render(): (v: ReceiptsView)
      reads this
      ensures loading ==> v == Spinner
      ensures !loading && error.Some? ==> v == ErrorView(error.value)
      ensures !loading && error.None? && receipts == [] ==> v == NoRecords
      ensures !loading && error.None? && receipts != [] ==>
                v == List(params.projectName, Cards(receipts, expandedReceipts))
      ensures v.List? ==> v.title == params.projectName && v.cards == Cards(receipts, expandedReceipts)
      ensures Valid() ==> !v.NoRecords?
    {
      if loading then Spinner
      else if error.Some? then ErrorView(error.value)
      else if |receipts| == 0 then NoRecords
      else List(params.projectName, Cards(receipts, expandedReceipts))
    }
  }
}
