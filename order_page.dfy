/** The customer's order list helpers (frontend/src/features/customer/pages/Orders/OrderPage.js):
    the short order number, the status CSS class, and the two-item preview with its
    "+n more items" line. Case mapping is modelled on ASCII letters. */
module OrderPage {
  import opened Common
  import opened OrderSlice

  /** ASCII `toUpperCase` of one character. */
  function UpperChar(c: char): char {
    if 'a' <= c <= 'z' then (c as int - 32) as char else c
  }

  /** ASCII `toLowerCase` of one character. */
  function LowerChar(c: char): char {
    if 'A' <= c <= 'Z' then (c as int + 32) as char else c
  }

  /** `s.toUpperCase()`: same length, each character upper-cased, no lower-case letter left. */
  function Upper(s: string): (r: string)
    ensures |r| == |s| && forall k :: 0 <= k < |s| ==> r[k] == UpperChar(s[k])
    ensures forall k :: 0 <= k < |r| ==> !('a' <= r[k] <= 'z')
  {
    seq(|s|, k requires 0 <= k < |s| => UpperChar(s[k]))
  }

  /** `s.toLowerCase()`: same length, each character lower-cased, no upper-case letter left. */
  function Lower(s: string): (r: string)
    ensures |r| == |s| && forall k :: 0 <= k < |s| ==> r[k] == LowerChar(s[k])
    ensures forall k :: 0 <= k < |r| ==> !('A' <= r[k] <= 'Z')
  {
    seq(|s|, k requires 0 <= k < |s| => LowerChar(s[k]))
  }

  /** Lower-casing twice is lower-casing once, and lower-casing forgets the case. */
  lemma LowerIdempotent(s: string)
    ensures Lower(Lower(s)) == Lower(s)
    ensures Lower(Upper(s)) == Lower(s)
  {
  }

  /** `s.slice(-6)`: the last six characters, or all of them when there are fewer. */
  function LastSix(s: string): (r: string)
    ensures |r| == (if |s| < 6 then |s| else 6)
    ensures r == s[|s| - |r|..]
  {
    if |s| < 6 then s else s[|s| - 6..]
  }

  /** getOrderNumber: 'N/A' when the order or its id is missing (or empty); otherwise the
      id's last min(6, |id|) characters, upper-cased. */
  function OrderNumber(order: Option<ClientOrder>): (r: string)
    ensures order.None? || !Truthy(order.value.id) ==> r == "N/A"
    ensures order.Some? && Truthy(order.value.id) ==>
              var id := order.value.id.value;
              |r| == (if |id| < 6 then |id| else 6) && r == Upper(id[|id| - |r|..])
  {
    if order.None? || !Truthy(order.value.id) then "N/A"
    else Upper(LastSix(order.value.id.value))
  }

  /** An order number is at most six characters and carries no lower-case letter, and two ids
      that end alike up to case get the same number. */
  lemma OrderNumberShape(order: Option<ClientOrder>, id1: string, id2: string)
    ensures |OrderNumber(order)| <= 6
    ensures forall k :: 0 <= k < |OrderNumber(order)| ==> !('a' <= OrderNumber(order)[k] <= 'z')
    ensures |id1| >= 6 && |id2| >= 6 && Upper(id1[|id1| - 6..]) == Upper(id2[|id2| - 6..]) ==>
              OrderNumber(Some(ClientOrder(Some(id1), None, None, None)))
              == OrderNumber(Some(ClientOrder(Some(id2), None, None, None)))
  {
  }

  /** getStatusClass: 'status-idle' for a missing or empty status, otherwise
      'order-status status-' and the lower-cased status. */
  function StatusClass(status: Option<string>): (r: string)
    ensures !Truthy(status) ==> r == "status-idle"
    ensures Truthy(status) ==> r == "order-status status-" + Lower(status.value)
  {
    if !Truthy(status) then "status-idle" else "order-status status-" + Lower(status.value)
  }

  /** The class ignores the status's case: statuses equal up to case get the same class. */
  lemma StatusClassIgnoresCase(s: string)
    ensures StatusClass(Some(Lower(s))) == StatusClass(Some(s))
    ensures StatusClass(Some(Upper(s))) == StatusClass(Some(s))
  {
    LowerIdempotent(s);
  }

  /** `(order.items || []).slice(0, 2)`: at most the first two items, in order. */
  function Preview(items: Option<seq<ClientItem>>): (r: seq<ClientItem>)
    ensures items.None? ==> r == []
    ensures items.Some? ==> |r| == (if |items.value| < 2 then |items.value| else 2) && r == items.value[..|r|]
  {
    if items.None? then []
    else if |items.value| < 2 then items.value
    else items.value[..2]
  }

  /** The "+k more items" line: shown only for more than two items, with k the rest. */
  function MoreCount(items: Option<seq<ClientItem>>): (r: Option<nat>)
    ensures r.Some? <==> items.Some? && |items.value| > 2
    ensures r.Some? ==> r.value == |items.value| - 2
  {
    if items.Some? && |items.value| > 2 then Some(|items.value| - 2) else None
  }

  /** The preview and the "more" line account for every item exactly once. */
  lemma PreviewAccountsForAll(items: Option<seq<ClientItem>>)
    ensures |Preview(items)| + MoreCount(items).GetOr(0) == (if items.None? then 0 else |items.value|)
    ensures MoreCount(items).Some? ==> MoreCount(items).value >= 1
  {
  }
}
