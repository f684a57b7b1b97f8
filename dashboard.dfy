/**
 * The dashboard: the carousel's wrap-around step, the URL scheme rule of an
 * image press, the header's display name, and the referrer fetch.
 */
module Dashboard {
  import opened Wrappers
  import opened JsText
  import opened Gateway
  import opened AuthContext

  datatype CarouselItem = CarouselItem(id: int, url: string)

  const CarouselItems: seq<CarouselItem> := [
    CarouselItem(1, "https://www.vgnhomes.org/"),
    CarouselItem(2, "https://www.vgnhomes.org/"),
    CarouselItem(3, "https://www.vgnhomes.org/"),
    CarouselItem(4, "https://www.vgnhomes.org/"),
    CarouselItem(5, "https://www.vgnhomes.org/"),
    CarouselItem(6, "https://www.vgnhomes.org/")
  ]

  /** One carousel tick: step forward, back to 0 once the end of `count` items is reached. */
  function NextIndex(current: nat, count: nat): (next: nat)
    ensures current + 1 < count ==> next == current + 1
    ensures current + 1 >= count ==> next == 0
    ensures count > 0 ==> next < count
  {
    if current + 1 >= count then 0 else current + 1
  }

  /** The index after `ticks` carousel ticks. */
  function Ticks(current: nat, ticks: nat, count: nat): nat
    decreases ticks
  {
    if ticks == 0 then current else Ticks(NextIndex(current, count), ticks - 1, count)
  }

  /** Every tick keeps the index within the item list. */
  lemma {:induction false} TicksInRange(current: nat, ticks: nat, count: nat)
    requires current < count
    ensures Ticks(current, ticks, count) < count
    decreases ticks
  {
    if ticks > 0 {
      TicksInRange(NextIndex(current, count), ticks - 1, count);
    }
  }

  lemma {:induction false} TicksAdd(current: nat, a: nat, b: nat, count: nat)
    ensures Ticks(current, a + b, count) == Ticks(Ticks(current, a, count), b, count)
    decreases a
  {
    if a > 0 {
      TicksAdd(NextIndex(current, count), a - 1, b, count);
    }
  }

  lemma {:induction false} TicksForward(current: nat, ticks: nat, count: nat)
    requires current + ticks < count
    ensures Ticks(current, ticks, count) == current + ticks
    decreases ticks
  {
    if ticks > 0 {
      TicksForward(current + 1, ticks - 1, count);
    }
  }

  lemma {:induction false} TicksToWrap(current: nat, count: nat)
    requires current < count
    ensures Ticks(current, count - current, count) == 0
    decreases count - current
  {
    if current + 1 < count {
      TicksToWrap(current + 1, count);
    }
  }

  /** After as many ticks as there are items, the carousel is back where it started. */
  lemma FullCycle(current: nat, count: nat)
    requires current < count
    ensures Ticks(current, count, count) == current
  {
    TicksAdd(current, count - current, current, count);
    TicksToWrap(current, count);
    TicksForward(0, current, count);
  }

  /** The six-item carousel returns to its index after six ticks. */
  lemma SixTicksCycle(current: nat)
    requires current < |CarouselItems|
    ensures Ticks(current, 6, |CarouselItems|) == current
  {
    FullCycle(current, |CarouselItems|);
  }

  predicate HasScheme(url: string) {
    StartsWith(url, "http://") || StartsWith(url, "https://")
  }

  /** The URL `handleImagePress` opens. */
  function FormatUrl(url: string): (formatted: string)
    ensures HasScheme(url) ==> formatted == url
    ensures !HasScheme(url) ==> formatted == "https://" + url
    ensures HasScheme(formatted)
  {
    if HasScheme(url) then url else "https://" + url
  }

  /** Formatting an already formatted URL changes nothing. */
  lemma FormatUrlIdempotent(url: string)
    ensures FormatUrl(FormatUrl(url)) == FormatUrl(url)
  {
  }

  /** The header line: the customer name when non-empty, else '+91 ' and the number. */
  function DisplayName(referrer: Option<Customer>, mobile: string): (name: string)
    ensures referrer.Some? && referrer.value.customerName != "" ==> name == referrer.value.customerName
    ensures !(referrer.Some? && referrer.value.customerName != "") ==> name == "+91 " + mobile
    ensures name != ""
  {
    if referrer.Some? && referrer.value.customerName != "" then referrer.value.customerName
    else "+91 " + mobile
  }

  class DashboardScreen {
    const mobile: string
    var currentIndex: nat
    var referrerData: Option<Customer>

    ghost predicate Valid()
      reads this
    {
      currentIndex < |CarouselItems|
    }

    /** `mobile` is the session number (`mobile || ''`), read when the screen is created. */
    constructor (session: SessionStore)
      ensures mobile == MobileOf(session.authData)
      ensures currentIndex == 0 && referrerData == None
      ensures Valid()
    {
      mobile := MobileOf(session.authData);
      currentIndex := 0;
      referrerData := None;
    }

    /** The referrer fetch: only for a non-empty number; only a first row is kept. */
    method LoadReferrer(response: Fetch<Customer>)
      modifies this
      ensures mobile != "" && FirstRecord(response).Some? ==> referrerData == FirstRecord(response)
      ensures mobile == "" || FirstRecord(response).None? ==> referrerData == old(referrerData)
      ensures currentIndex == old(currentIndex)
    {
      if mobile != "" {
        var first := FirstRecord(response);
        if first.Some? {
          referrerData := first;
        }
      }
    }

    /**
     * One interval callback: returns the index scrolled to, which becomes the
     * current index; from any index, the new one is within the item list.
     */
    method Tick() returns (scrolledTo: nat)
      modifies this
      ensures Valid()
      ensures currentIndex == NextIndex(old(currentIndex), |CarouselItems|)
      ensures scrolledTo == currentIndex
      ensures referrerData == old(referrerData)
    {
      var nextIndex := currentIndex + 1;
      if nextIndex >= |CarouselItems| {
        nextIndex := 0;
      }
      scrolledTo := nextIndex;
      currentIndex := nextIndex;
    }

    /** `handleImagePress(url)`: the URL handed to the link opener. */
    method HandleImagePress(url: string) returns (formattedUrl: string)
      ensures formattedUrl == FormatUrl(url)
    {
      formattedUrl := url;
      if !StartsWith(url, "http://") && !StartsWith(url, "https://") {
        formattedUrl := "https://" + url;
      }
    }
  }
}
