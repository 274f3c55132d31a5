/** The about page's FAQ accordion: a single optional open index toggled by
    clicks, and the two-digit number badge of each item. */
module AboutFaq {
  import opened Common
  import JsString

  /** The six questions the page lists. */
  const FaqCount: nat := 6

  /** The click handler's new value: the open item closes, any other item
      opens in its place. */
  function Toggle(openFaq: Option<nat>, i: nat): (r: Option<nat>)
    ensures openFaq == Some(i) ==> r == None
    ensures openFaq != Some(i) ==> r == Some(i)
  {
    if openFaq == Some(i) then None else Some(i)
  }

  /** Two clicks on the same item restore the state before them, unless
      another item was open: that one stays closed. */
  lemma ToggleTwice(openFaq: Option<nat>, i: nat)
    ensures openFaq == None || openFaq == Some(i) ==> Toggle(Toggle(openFaq, i), i) == openFaq
    ensures openFaq.Some? && openFaq.value != i ==> Toggle(Toggle(openFaq, i), i) == None
  {
  }

  class Accordion {
    var openFaq: Option<nat>

    constructor()
      ensures openFaq == None
    {
      openFaq := None;
    }

    /** Whether item `i` is expanded. */
    function IsOpen(i: nat): (r: bool)
      reads this
      ensures r <==> openFaq == Some(i)
    {
      openFaq == Some(i)
    }

    method Click(i: nat)
      modifies this
      ensures openFaq == Toggle(old(openFaq), i)
    {
      openFaq := if openFaq == Some(i) then None else Some(i);
    }
  }

  /** At most one item is expanded at a time. */
  lemma AtMostOneOpen(a: Accordion, i: nat, j: nat)
    requires a.IsOpen(i) && a.IsOpen(j)
    ensures i == j
  {
  }

  /** Clicking a closed item while another is open closes the other. */
  method ClickSwitchesItem(i: nat, j: nat) returns (iOpen: bool, jOpen: bool)
    requires i != j
    ensures !iOpen && jOpen
  {
    var a := new Accordion();
    a.Click(i);
    a.Click(j);
    iOpen, jOpen := a.IsOpen(i), a.IsOpen(j);
  }

  /** `String(i + 1).padStart(2, "0")`. */
  function Badge(i: nat): (r: string)
    ensures |r| >= 2
  {
    JsString.PadStart(JsString.NatToDecimal(i + 1), 2, '0')
  }

  /** The badges of the items on the page are "01" to "06". */
  lemma BadgesOfListedItems(i: nat)
    requires i < FaqCount
    ensures Badge(i) == ['0', JsString.DigitChar(i + 1)]
  {
    assert JsString.NatToDecimal(i + 1) == [JsString.DigitChar(i + 1)];
  }

  /** Every badge reads back as its item's number, so no two items share
      one. */
  lemma {:induction false} BadgeValue(i: nat)
    ensures JsString.DigitsValue(Badge(i), 10) == i + 1
  {
    var s := JsString.NatToDecimal(i + 1);
    JsString.NatToStringRoundTrip(i + 1, 10);
    if |s| < 2 {
      LeadingZero(s);
      assert Badge(i) == ['0'] + s;
    }
  }

  /** A leading zero does not change a decimal value. */
  lemma LeadingZero(s: string)
    requires |s| == 1
    ensures JsString.DigitsValue(['0'] + s, 10) == JsString.DigitsValue(s, 10)
  {
    var t := ['0'] + s;
    assert t[..|t| - 1] == ['0'];
    assert ['0'][..0] == [];
    assert s[..0] == [];
  }

  lemma BadgesDistinct(i: nat, j: nat)
    requires i != j
    ensures Badge(i) != Badge(j)
  {
    BadgeValue(i);
    BadgeValue(j);
  }
}
