/** `src/components/SubscriptionManage.tsx`: the subscriptions page. Its `loading` and
    `subscriptions` state, the status, icon and title of each card, and which of the
    three screens it shows. */
module SubscriptionManage {
  import opened Wrappers
  import opened Auth

  /** A fetched row as the page reads it (`interface Subscription`); `created_at` and
      `active_until` as integer milliseconds. */
  datatype Subscription = Subscription(id: string, createdAt: int, period: string, price: int, activeUntil: int)

  datatype Status = Active | Expired

  /** `new Date(sub.active_until) > new Date()`: strictly later than now is Active. */
  function StatusAt(activeUntil: int, now: int): (s: Status)
    ensures s == Active <==> activeUntil > now
    ensures s == Expired <==> activeUntil <= now
  {
    if activeUntil > now then Active else Expired
  }

  /** The status text. */
  function StatusText(s: Status): string {
    match s
    case Active => "Active"
    case Expired => "Expired"
  }

  /** The status colour class: green for Active, red for Expired. */
  function StatusColor(s: Status): string {
    match s
    case Active => "text-green-600"
    case Expired => "text-red-600"
  }

  /** The three icons `getPlanIcon` can return. */
  datatype Icon = Clock | CalendarDays | Calendar

  /** `getPlanIcon`: a switch on the period with `Clock` as the default. */
  function PlanIcon(period: string): (i: Icon)
    ensures i == CalendarDays <==> period == "week"
    ensures i == Calendar <==> period == "month"
    ensures i == Clock <==> period != "week" && period != "month"
  {
    match period
    case "day" => Clock
    case "week" => CalendarDays
    case "month" => Calendar
    case _ => Clock
  }

  /** Upper case of an ASCII lower-case letter; any other character unchanged. */
  function ToUpperAscii(c: char): char {
    if 'a' <= c <= 'z' then (c as int - 'a' as int + 'A' as int) as char else c
  }

  /** `s.charAt(0).toUpperCase() + s.slice(1)`. */
  function Capitalize(s: string): (r: string)
    ensures |r| == |s|
    ensures s != [] ==> r[0] == ToUpperAscii(s[0]) && r[1..] == s[1..]
  {
    if s == [] then [] else [ToUpperAscii(s[0])] + s[1..]
  }

  /** One card of the list. */
  datatype Card = Card(id: string, icon: Icon, title: string, price: int, statusText: string, statusColor: string)

  /** The card of one row: the period's icon, the capitalised period followed by
      " Plan", the price and the status at `now`. */
  function CardOf(sub: Subscription, now: int): Card {
    var status := StatusAt(sub.activeUntil, now);
    Card(sub.id, PlanIcon(sub.period), Capitalize(sub.period) + " Plan", sub.price, StatusText(status), StatusColor(status))
  }

  /** What the page shows. */
  datatype Screen = LoadingScreen | NoSubscriptionsScreen | CardsScreen(cards: seq<Card>)

  /** The page for its state: "Loading subscriptions..." while loading, otherwise the
      "no active subscriptions" card when the list is empty, otherwise one card per row
      in the order of the list. */
  function Render(loading: bool, subscriptions: seq<Subscription>, now: int): (screen: Screen)
    ensures screen == LoadingScreen <==> loading
    ensures screen == NoSubscriptionsScreen <==> !loading && subscriptions == []
    ensures screen.CardsScreen? ==>
      |screen.cards| == |subscriptions| &&
      forall i :: 0 <= i < |subscriptions| ==> screen.cards[i] == CardOf(subscriptions[i], now)
  {
    if loading then LoadingScreen
    else if |subscriptions| == 0 then NoSubscriptionsScreen
    else CardsScreen(seq(|subscriptions|, i requires 0 <= i < |subscriptions| => CardOf(subscriptions[i], now)))
  }

  /** The answer of the `subscriptions` select: `data` (possibly null) or an error. */
  datatype FetchResult = Fetched(data: Option<seq<Subscription>>) | FetchFailed(message: string)

  /** The page's state. */
  class SubscriptionList {
    var subscriptions: seq<Subscription>
    var loading: bool

    /** `useState([])` and `useState(true)`. */
    constructor ()
      ensures subscriptions == [] && loading
    {
      subscriptions := [];
      loading := true;
    }

    /** `fetchSubscriptions`: on success store `data || []`; on an error keep the list;
        in both cases stop loading. */
    method FetchSubscriptions(result: FetchResult)
      modifies this
      ensures !loading
      ensures result.Fetched? ==> subscriptions == result.data.GetOr([])
      ensures result.FetchFailed? ==> subscriptions == old(subscriptions)
    {
      if result.Fetched? {
        subscriptions := result.data.GetOr([]);
      }
      loading := false;
    }
  }

  // Properties.

  /** The titles of the three plans, and of an empty period. */
  lemma PlanTitles()
    ensures Capitalize("day") == "Day" && Capitalize("week") == "Week" && Capitalize("month") == "Month"
    ensures Capitalize("") == ""
  {
    assert "day"[1..] == "ay" && "week"[1..] == "eek" && "month"[1..] == "onth";
  }

  /** Capitalising twice changes nothing more. */
  lemma CapitalizeIdempotent(s: string)
    ensures Capitalize(Capitalize(s)) == Capitalize(s)
  {
    if s != [] {
      var r := Capitalize(s);
      assert r == [r[0]] + r[1..];
    }
  }

  /** Each plan gets its own icon; every other period gets the clock. */
  lemma IconsOfPlans(p: Plan)
    ensures PlanIcon(PeriodName(p)) == match p case Day => Clock case Week => CalendarDays case Month => Calendar
  {
  }

  /** A card shows the row's id and price, its plan's icon, the capitalised period
      followed by " Plan", and a status whose text and colour agree: green "Active"
      exactly while `active_until` is after `now`, red "Expired" otherwise. */
  lemma CardShowsRow(sub: Subscription, now: int)
    ensures var c := CardOf(sub, now);
      && c.id == sub.id && c.price == sub.price && c.icon == PlanIcon(sub.period)
      && c.title == Capitalize(sub.period) + " Plan"
      && (c.statusText == "Active" <==> sub.activeUntil > now)
      && (c.statusText == "Expired" <==> sub.activeUntil <= now)
      && (c.statusColor == "text-green-600" <==> c.statusText == "Active")
      && (c.statusColor == "text-red-600" <==> c.statusText == "Expired")
  {
  }

  /** Once expired, a subscription stays expired. */
  lemma ExpiredStaysExpired(activeUntil: int, now: int, later: int)
    requires StatusAt(activeUntil, now) == Expired && now <= later
    ensures StatusAt(activeUntil, later) == Expired
  {
  }

  /** A subscription created at `t` shows Active from `t` until just before `t` plus the
      plan's days, and Expired from then on. */
  lemma ActiveForThePlanDuration(t: int, p: Plan, now: int)
    ensures t <= now < t + DurationInDays(p) * 86_400_000 ==> StatusAt(ActiveUntil(t, p), now) == Active
    ensures now >= t + DurationInDays(p) * 86_400_000 ==> StatusAt(ActiveUntil(t, p), now) == Expired
  {
  }

  /** The empty-list message depends only on the list being empty: a list of expired
      subscriptions still shows cards. */
  lemma ExpiredListShowsCards(subscriptions: seq<Subscription>, now: int)
    requires subscriptions != []
    requires forall i :: 0 <= i < |subscriptions| ==> StatusAt(subscriptions[i].activeUntil, now) == Expired
    ensures Render(false, subscriptions, now).CardsScreen?
    ensures forall i :: 0 <= i < |subscriptions| ==> Render(false, subscriptions, now).cards[i].statusText == "Expired"
  {
  }
}
