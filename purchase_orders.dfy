/** The purchase-order page: the create form's editable list of line items, the
    request it posts, the approval request, the status badge and the rules for
    which controls are shown. */
module PurchaseOrders {
  import opened Wrappers
  import opened Users
  import opened JsNumbers
  import Sidebar

  /** One editable row of the create form; every field holds the text typed. */
  datatype LineItem = LineItem(vendor: string, location: string, brand: string, model: string,
                               storage: string, colour: string, imei: string, qty: string, rate: string)

  /** The names `updateLineItem` is called with, one per input of a row. */
  datatype Field = Vendor | Location | Brand | Model | Storage | Colour | Imei | Qty | Rate

  /** The row a new form starts with and `addLineItem` appends. */
  const BlankRow: LineItem := LineItem("", "", "", "", "", "", "", "1", "")

  /** The purchase office a new or reset form selects. */
  const DefaultOffice: string := "Magnova Head Office"

  function GetField(row: LineItem, f: Field): string {
    match f
    case Vendor => row.vendor
    case Location => row.location
    case Brand => row.brand
    case Model => row.model
    case Storage => row.storage
    case Colour => row.colour
    case Imei => row.imei
    case Qty => row.qty
    case Rate => row.rate
  }

  /** `row[field] = value`. */
  function WithField(row: LineItem, f: Field, value: string): (r: LineItem)
    ensures GetField(r, f) == value
    ensures forall g :: g != f ==> GetField(r, g) == GetField(row, g)
  {
    match f
    case Vendor => row.(vendor := value)
    case Location => row.(location := value)
    case Brand => row.(brand := value)
    case Model => row.(model := value)
    case Storage => row.(storage := value)
    case Colour => row.(colour := value)
    case Imei => row.(imei := value)
    case Qty => row.(qty := value)
    case Rate => row.(rate := value)
  }

  /** `items.filter((_, i) => i !== index)`, walking the list with the index
      counted down: a position outside the list removes nothing. */
  function DropIndex(items: seq<LineItem>, index: int): (r: seq<LineItem>)
    ensures 0 <= index < |items| ==> r == items[..index] + items[index + 1..]
    ensures !(0 <= index < |items|) ==> r == items
    decreases |items|
  {
    if items == [] then []
    else if index == 0 then DropIndex(items[1..], index - 1)
    else
      var rest := DropIndex(items[1..], index - 1);
      assert 0 < index < |items| ==> items[..index] == [items[0]] + items[1..][..index - 1];
      assert 0 < index < |items| ==> items[index + 1..] == items[1..][index..];
      [items[0]] + rest
  }

  /** `removeLineItem(index)`: the list without row `index`, or a single blank
      row when nothing would be left. */
  function RemovedItems(items: seq<LineItem>, index: int): (r: seq<LineItem>)
    ensures |r| >= 1
    ensures 0 <= index < |items| && |items| > 1 ==>
              |r| == |items| - 1 && r == items[..index] + items[index + 1..]
    ensures |items| == 0 || (|items| == 1 && index == 0) ==> r == [BlankRow]
    ensures |items| > 0 && !(0 <= index < |items|) ==> r == items
  {
    var kept := DropIndex(items, index);
    if |kept| > 0 then kept else [BlankRow]
  }

  /** `updateLineItem(index, field, value)`: only that field of that row changes. */
  function UpdatedItems(items: seq<LineItem>, index: int, f: Field, value: string): (r: seq<LineItem>)
    requires 0 <= index < |items|
    ensures |r| == |items|
    ensures forall i :: 0 <= i < |items| && i != index ==> r[i] == items[i]
    ensures GetField(r[index], f) == value
    ensures forall g :: g != f ==> GetField(r[index], g) == GetField(items[index], g)
  {
    items[index := WithField(items[index], f, value)]
  }

  /** Writing a field's previous text back undoes an update. */
  lemma UpdateUndone(items: seq<LineItem>, index: int, f: Field, value: string)
    requires 0 <= index < |items|
    ensures UpdatedItems(UpdatedItems(items, index, f, value), index, f, GetField(items[index], f)) == items
  {
    var r := UpdatedItems(UpdatedItems(items, index, f, value), index, f, GetField(items[index], f));
    assert r[index] == items[index] by {
      match f
      case Vendor =>
      case Location =>
      case Brand =>
      case Model =>
      case Storage =>
      case Colour =>
      case Imei =>
      case Qty =>
      case Rate =>
    }
  }

  /** Removing the row just added gives back the list it was added to. */
  lemma RemoveUndoesAdd(items: seq<LineItem>)
    requires |items| > 0
    ensures RemovedItems(items + [BlankRow], |items|) == items
  {
    assert (items + [BlankRow])[..|items|] == items;
  }

  /** The create form's state. The list of rows is never empty. */
  class CreateForm {
    var poDate: string
    var purchaseOffice: string
    var lineItems: seq<LineItem>

    ghost predicate Valid()
      reads this
    {
      |lineItems| > 0
    }

    /** A new form: `today` is the date the clock gives, as `YYYY-MM-DD`. */
    constructor (today: string)
      ensures Valid()
      ensures poDate == today && purchaseOffice == DefaultOffice && lineItems == [BlankRow]
    {
      poDate := today;
      purchaseOffice := DefaultOffice;
      lineItems := [BlankRow];
    }

    method ResetForm(today: string)
      modifies this
      ensures Valid()
      ensures poDate == today && purchaseOffice == DefaultOffice && lineItems == [BlankRow]
    {
      poDate := today;
      purchaseOffice := DefaultOffice;
      lineItems := [BlankRow];
    }

    method AddLineItem()
      requires Valid()
      modifies this`lineItems
      ensures Valid()
      ensures lineItems == old(lineItems) + [BlankRow]
    {
      lineItems := lineItems + [BlankRow];
    }

    method RemoveLineItem(index: int)
      requires Valid()
      modifies this`lineItems
      ensures Valid()
      ensures lineItems == RemovedItems(old(lineItems), index)
    {
      lineItems := RemovedItems(lineItems, index);
    }

    /** Copies the list, then writes the field of the row in the copy. */
    method UpdateLineItem(index: int, f: Field, value: string)
      requires Valid() && 0 <= index < |lineItems|
      modifies this`lineItems
      ensures Valid()
      ensures lineItems == UpdatedItems(old(lineItems), index, f, value)
    {
      var updatedItems := lineItems;
      updatedItems := updatedItems[index := WithField(updatedItems[index], f, value)];
      lineItems := updatedItems;
    }
  }

  /** One entry of `items` in the create request. `None` is `null`. */
  datatype RequestItem = RequestItem(
    slNo: int, vendor: string, location: string, brand: string, model: string,
    storage: Option<string>, colour: Option<string>, imei: Option<string>,
    qty: int, rate: real, poValue: real)

  /** `text || null`: the empty string is falsy. */
  function OrNull(text: string): (r: Option<string>)
    ensures r.None? <==> text == ""
    ensures r.Some? ==> r.value == text
  {
    if text == "" then None else Some(text)
  }

  // The page reads numbers with JavaScript's `parseInt` and `parseFloat`. Both
  // are parameters below (`None` is `NaN`); JsNumbers.ParseInt is the model of
  // `parseInt`, and JsNumbers.ParseIntFormTexts gives the facts about it that
  // the lemmas of this section ask of their parser.

  type Parser<T> = string -> Option<T>

  /** `parseInt(text) || 1`: `NaN` and 0 are falsy. */
  function QtyOrOne(text: string, parseInt: Parser<int>): (q: int)
    ensures q != 0
    ensures parseInt(text).Some? && parseInt(text).value != 0 ==> q == parseInt(text).value
    ensures parseInt(text).None? || parseInt(text) == Some(0) ==> q == 1
  {
    match parseInt(text)
    case Some(n) => if n == 0 then 1 else n
    case None => 1
  }

  /** `parseFloat(text) || 0`. */
  function RateOrZero(text: string, parseFloat: Parser<real>): (r: real)
    ensures parseFloat(text).None? ==> r == 0.0
    ensures parseFloat(text).Some? ==> r == parseFloat(text).value
  {
    match parseFloat(text)
    case Some(v) => v
    case None => 0.0
  }

  /** `po_value`: the quantity times the rate. */
  function LineValue(qty: int, rate: real): (value: real)
    ensures rate == 0.0 ==> value == 0.0
    ensures qty == 1 ==> value == rate
  {
    qty as real * rate
  }

  /** One row as the request carries it: texts copied, empty optional texts as
      `null`, the quantity defaulted to 1 and the value the quantity times the rate. */
  function ToRequestItem(row: LineItem, slNo: int, parseInt: Parser<int>, parseFloat: Parser<real>): (r: RequestItem)
    ensures r.slNo == slNo
    ensures r.vendor == row.vendor && r.location == row.location
    ensures r.brand == row.brand && r.model == row.model
    ensures r.storage == OrNull(row.storage) && r.colour == OrNull(row.colour) && r.imei == OrNull(row.imei)
    ensures r.qty == QtyOrOne(row.qty, parseInt) && r.rate == RateOrZero(row.rate, parseFloat)
    ensures r.qty != 0 && r.poValue == LineValue(r.qty, r.rate)
  {
    var qty := QtyOrOne(row.qty, parseInt);
    var rate := RateOrZero(row.rate, parseFloat);
    RequestItem(slNo, row.vendor, row.location, row.brand, row.model,
                OrNull(row.storage), OrNull(row.colour), OrNull(row.imei),
                qty, rate, LineValue(qty, rate))
  }

  /** The `items` of the create request: one per row, in order, numbered from 1. */
  function RequestItems(items: seq<LineItem>, parseInt: Parser<int>, parseFloat: Parser<real>): (r: seq<RequestItem>)
    ensures |r| == |items|
    ensures forall i :: 0 <= i < |r| ==> r[i].slNo == i + 1
    ensures forall i :: 0 <= i < |r| ==> r[i] == ToRequestItem(items[i], i + 1, parseInt, parseFloat)
  {
    seq(|items|, i requires 0 <= i < |items| => ToRequestItem(items[i], i + 1, parseInt, parseFloat))
  }

  /** The first rows' entries do not depend on the rows after them. */
  lemma RequestItemsPrefix(items: seq<LineItem>, n: nat, parseInt: Parser<int>, parseFloat: Parser<real>)
    requires n <= |items|
    ensures RequestItems(items[..n], parseInt, parseFloat) == RequestItems(items, parseInt, parseFloat)[..n]
  {
  }

  /** A new form's single row is posted as item 1 with quantity 1, rate 0, value 0
      and `null` storage, colour and IMEI. */
  lemma BlankRowRequest(parseInt: Parser<int>, parseFloat: Parser<real>)
    requires parseInt("1") == Some(1) && parseFloat("") == None
    ensures RequestItems([BlankRow], parseInt, parseFloat)
            == [RequestItem(1, "", "", "", "", None, None, None, 1, 0.0, 0.0)]
  {
    var r := RequestItems([BlankRow], parseInt, parseFloat);
    assert r[0] == ToRequestItem(BlankRow, 1, parseInt, parseFloat);
  }

  /** `parseInt(item.qty || 0)`: an empty quantity counts as 0. */
  function QtyForTotal(row: LineItem, parseInt: Parser<int>): (q: Option<int>)
    ensures row.qty != "" ==> q == parseInt(row.qty)
    ensures row.qty == "" ==> q == parseInt("0")
  {
    parseInt(if row.qty == "" then "0" else row.qty)
  }

  /** `totalQty`, the footer sum of the rows' quantities, added from the first
      row on; one `NaN` makes the whole sum `NaN` (`None`). */
  function TotalQty(items: seq<LineItem>, parseInt: Parser<int>): (total: Option<int>)
    ensures items == [] ==> total == Some(0)
    ensures |items| == 1 ==> total == QtyForTotal(items[0], parseInt)
    decreases |items|
  {
    if items == [] then Some(0)
    else
      match (TotalQty(items[..|items| - 1], parseInt), QtyForTotal(items[|items| - 1], parseInt))
      case (Some(sum), Some(q)) => Some(sum + q)
      case _ => None
  }

  /** The sum is `NaN` exactly when some row's quantity does not parse. */
  lemma {:induction false} TotalQtyNaN(items: seq<LineItem>, parseInt: Parser<int>)
    ensures TotalQty(items, parseInt).None? <==>
            exists i :: 0 <= i < |items| && QtyForTotal(items[i], parseInt).None?
    decreases |items|
  {
    if items != [] {
      var init := items[..|items| - 1];
      TotalQtyNaN(init, parseInt);
      if exists i :: 0 <= i < |init| && QtyForTotal(init[i], parseInt).None? {
        var i :| 0 <= i < |init| && QtyForTotal(init[i], parseInt).None?;
        assert items[i] == init[i];
      }
      if exists i :: 0 <= i < |items| && QtyForTotal(items[i], parseInt).None? {
        var i :| 0 <= i < |items| && QtyForTotal(items[i], parseInt).None?;
        if i < |init| {
          assert init[i] == items[i];
        }
      }
    }
  }

  /** The quantities of request entries, added up. */
  function SumQty(r: seq<RequestItem>): int
    decreases |r|
  {
    if r == [] then 0 else SumQty(r[..|r| - 1]) + r[|r| - 1].qty
  }

  /** A quantity text that `parseInt` reads as a whole number of at least 1.
      This is an assumption about the rows, not what the input's `min="1"`
      enforces: that check is on the numeric value, which lets `"0.5e1"` through. */
  predicate QtyAccepted(text: string, parseInt: Parser<int>) {
    parseInt(text).Some? && parseInt(text).value >= 1
  }

  /** The sum of the quantities the request sends, row by row. */
  function RequestQtySum(items: seq<LineItem>, parseInt: Parser<int>): int
    decreases |items|
  {
    if items == [] then 0
    else RequestQtySum(items[..|items| - 1], parseInt) + QtyOrOne(items[|items| - 1].qty, parseInt)
  }

  /** With every quantity accepted, no row is `NaN` and none falls back to 1. */
  lemma {:induction false} TotalQtyIsRequestQtySum(items: seq<LineItem>, parseInt: Parser<int>)
    requires parseInt("") == None
    requires forall i :: 0 <= i < |items| ==> QtyAccepted(items[i].qty, parseInt)
    ensures TotalQty(items, parseInt) == Some(RequestQtySum(items, parseInt))
    decreases |items|
  {
    if items != [] {
      var n := |items| - 1;
      assert forall i :: 0 <= i < n ==> items[..n][i] == items[i];
      TotalQtyIsRequestQtySum(items[..n], parseInt);
      assert items[n].qty != "";
    }
  }

  /** The request's quantities, added up, are the same row-by-row sum. */
  lemma {:induction false} SumQtyOfRequest(items: seq<LineItem>, parseInt: Parser<int>, parseFloat: Parser<real>)
    ensures SumQty(RequestItems(items, parseInt, parseFloat)) == RequestQtySum(items, parseInt)
    decreases |items|
  {
    if items != [] {
      var n := |items| - 1;
      SumQtyOfRequest(items[..n], parseInt, parseFloat);
      RequestItemsPrefix(items, n, parseInt, parseFloat);
    }
  }

  /** Once every quantity is accepted, the footer total is the total quantity
      the request orders. */
  lemma TotalQtyMatchesRequest(items: seq<LineItem>, parseInt: Parser<int>, parseFloat: Parser<real>)
    requires parseInt("") == None
    requires forall i :: 0 <= i < |items| ==> QtyAccepted(items[i].qty, parseInt)
    ensures TotalQty(items, parseInt) == Some(SumQty(RequestItems(items, parseInt, parseFloat)))
  {
    TotalQtyIsRequestQtySum(items, parseInt);
    SumQtyOfRequest(items, parseInt, parseFloat);
  }

  // The lemmas above, instantiated with the modelled `parseInt`.

  /** With JavaScript's `parseInt`, a new form's blank row is posted as item 1,
      quantity 1, for any `parseFloat` that reads the empty rate as `NaN`. */
  lemma BlankRowRequestParseInt(parseFloat: Parser<real>)
    requires parseFloat("") == None
    ensures RequestItems([BlankRow], ParseInt, parseFloat)
            == [RequestItem(1, "", "", "", "", None, None, None, 1, 0.0, 0.0)]
  {
    ParseIntFormTexts();
    BlankRowRequest(ParseInt, parseFloat);
  }

  /** With JavaScript's `parseInt`, the footer total equals the quantity the
      request orders once every quantity text reads as a whole number of at least 1. */
  lemma TotalQtyMatchesRequestParseInt(items: seq<LineItem>, parseFloat: Parser<real>)
    requires forall i :: 0 <= i < |items| ==> QtyAccepted(items[i].qty, ParseInt)
    ensures TotalQty(items, ParseInt) == Some(SumQty(RequestItems(items, ParseInt, parseFloat)))
  {
    ParseIntFormTexts();
    TotalQtyMatchesRequest(items, ParseInt, parseFloat);
  }

  /** A row whose quantity text reads as 0 counts 0 in the footer, while the
      request falls back to quantity 1. */
  lemma ZeroQtyDiverges(row: LineItem, parseInt: Parser<int>, parseFloat: Parser<real>)
    requires row.qty != "" && parseInt(row.qty) == Some(0)
    ensures TotalQty([row], parseInt) == Some(0)
    ensures RequestItems([row], parseInt, parseFloat)[0].qty == 1
  {
    assert [row][..0] == [];
  }

  /** A quantity typed as `"0.5e1"` passes a `min="1"` number input (its value
      is 5), but `parseInt` reads it as 0: the footer counts 0 for the row while
      the request sends quantity 1. */
  lemma ExponentQtyDiverges(parseFloat: Parser<real>)
    ensures TotalQty([BlankRow.(qty := "0.5e1")], ParseInt) == Some(0)
    ensures RequestItems([BlankRow.(qty := "0.5e1")], ParseInt, parseFloat)[0].qty == 1
  {
    ParseIntExponentText();
    ZeroQtyDiverges(BlankRow.(qty := "0.5e1"), ParseInt, parseFloat);
  }

  /** The body of the approve/reject request. */
  datatype ApprovalRequest = ApprovalRequest(action: string, rejectionReason: Option<string>)

  /** `handleApproval`'s payload: the reason is sent only with a rejection. */
  function ApprovalPayload(action: string, rejectionReason: string): (r: ApprovalRequest)
    ensures r.action == action
    ensures r.rejectionReason.Some? <==> action == "reject"
    ensures r.rejectionReason.Some? ==> r.rejectionReason.value == rejectionReason
  {
    ApprovalRequest(action, if action == "reject" then Some(rejectionReason) else None)
  }

  /** The badge style of each known approval status. */
  const StatusStyles: map<string, string> :=
    map["Approved" := "status-approved", "Pending" := "status-pending",
        "Rejected" := "status-rejected", "Created" := "status-created"]

  /** `styles[status] || 'status-created'`: the class the status badge gets. */
  function StatusBadge(status: string): (style: string)
    ensures status in StatusStyles ==> style == StatusStyles[status]
    ensures status !in StatusStyles ==> style == "status-created"
    ensures style in StatusStyles.Values
  {
    if status in StatusStyles then StatusStyles[status]
    else
      assert StatusStyles["Created"] == "status-created";
      "status-created"
  }

  /** The badge tells the four known statuses apart, and shows every other
      status like `Created`. */
  lemma StatusBadgeDistinguishesKnown(s1: string, s2: string)
    requires s1 in StatusStyles && s2 in StatusStyles && s1 != s2
    ensures StatusBadge(s1) != StatusBadge(s2)
  {
  }

  /** The Create Purchase Order button: Magnova users in the Purchase or Admin role. */
  predicate CanCreate(user: Option<User>)
    ensures CanCreate(user) ==> RoleOf(user).Some? && RoleOf(user).value in Sidebar.Roles
  {
    user.Some? && user.value.organization == "Magnova"
    && (user.value.role == "Purchase" || user.value.role == "Admin")
  }

  /** The Review button of a listed order: Pending orders, for Approver or Admin. */
  predicate CanReview(status: string, user: Option<User>)
    ensures CanReview(status, user) ==> RoleOf(user).Some? && RoleOf(user).value in Sidebar.Roles
  {
    status == "Pending" && user.Some? && (user.value.role == "Approver" || user.value.role == "Admin")
  }

  /** The Remove button of a row: shown when there is more than one row. */
  predicate CanRemove(items: seq<LineItem>) {
    |items| > 1
  }

  /** Remove is shown exactly when removing a row shortens the list; with one
      row left, removing it would only put a blank row in its place. */
  lemma CanRemoveIffShrinks(items: seq<LineItem>, index: int)
    requires 0 <= index < |items|
    ensures CanRemove(items) <==> |RemovedItems(items, index)| == |items| - 1
  {
  }

  /** Whoever may create an order finds the page in the sidebar. */
  lemma CreateReachableFromMenu(user: Option<User>)
    requires CanCreate(user)
    ensures Sidebar.MenuItems[1].path == "/purchase-orders"
    ensures Sidebar.MenuItems[1] in Sidebar.FilteredMenu(user)
  {
  }

  /** Whoever may review an order finds the page in the sidebar. */
  lemma ReviewReachableFromMenu(status: string, user: Option<User>)
    requires CanReview(status, user)
    ensures Sidebar.MenuItems[1].path == "/purchase-orders"
    ensures Sidebar.MenuItems[1] in Sidebar.FilteredMenu(user)
  {
  }
}
