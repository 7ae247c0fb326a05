/**
 * The dashboard's list logic (app/dashboard/page.tsx): the decay of the
 * "new" flag on received kudos, the prepend of a realtime arrival, the
 * sent-list display, the Give-Kudos enable rule and the remaining-count
 * label, and the page state its handlers replace.
 */
module Dashboard {
  import opened Wrappers
  import opened KudosTypes

  /** Two minutes, in milliseconds. */
  const NewWindowMs: int := 2 * 60 * 1000

  /** A kudo created at `createdAt` is younger than the window at time `now`. */
  predicate WithinWindow(createdAt: int, now: int)
    ensures WithinWindow(createdAt, now) <==> createdAt > now - NewWindowMs
  {
    now - createdAt < NewWindowMs
  }

  /** The per-item rule `{ ...kudo, is_new: kudo.is_new && isWithinTwoMinutes }`. */
  function DecayOne(k: Kudo, now: int): (r: Kudo)
    ensures r.isNew <==> k.isNew && WithinWindow(k.createdAt, now)
    ensures r.(isNew := k.isNew) == k
  {
    k.(isNew := k.isNew && WithinWindow(k.createdAt, now))
  }

  /** The rule mapped over a whole list, as after a fetch and on every sweep. */
  function Decay(ks: seq<Kudo>, now: int): (r: seq<Kudo>)
    ensures |r| == |ks|
    ensures forall i :: 0 <= i < |ks| ==> r[i] == DecayOne(ks[i], now)
  {
    if ks == [] then [] else [DecayOne(ks[0], now)] + Decay(ks[1..], now)
  }

  /** A realtime arrival: the pushed kudo, marked new, in front of the list; no de-duplication. */
  function Arrive(k: Kudo, ks: seq<Kudo>): (r: seq<Kudo>)
    ensures |r| == |ks| + 1
    ensures r[0] == k.(isNew := true) && r[1..] == ks
  {
    [k.(isNew := true)] + ks
  }

  /** How the sent list is shown: every kudo with its flag forced off. */
  function DisplaySent(ks: seq<Kudo>): (r: seq<Kudo>)
    ensures |r| == |ks|
    ensures forall i :: 0 <= i < |ks| ==> !r[i].isNew && r[i].(isNew := ks[i].isNew) == ks[i]
  {
    if ks == [] then [] else [ks[0].(isNew := false)] + DisplaySent(ks[1..])
  }

  /** The Give-Kudos button is disabled only by a loaded count of exactly zero. */
  function GiveKudosDisabled(remaining: Option<int>): (disabled: bool)
    ensures disabled <==> remaining == Some(0)
    ensures remaining.None? ==> !disabled
  {
    remaining.Some? && remaining.value == 0
  }

  /** The noun under the remaining count. */
  function KudoNoun(remaining: Option<int>): (noun: string)
    ensures noun == "kudo" <==> remaining == Some(1)
    ensures noun == "kudo" || noun == "kudos"
  {
    if remaining == Some(1) then "kudo" else "kudos"
  }

  /** How many kudos of `ks` carry the id `id`. */
  function CountId(ks: seq<Kudo>, id: int): nat {
    if ks == [] then 0 else (if ks[0].id == id then 1 else 0) + CountId(ks[1..], id)
  }

  /** Decay never raises a flag. */
  lemma DecayNeverSetsNew(ks: seq<Kudo>, now: int, i: int)
    requires 0 <= i < |ks|
    ensures Decay(ks, now)[i].isNew ==> ks[i].isNew
  {
  }

  /** Decay changes nothing but the flag: with the flags forced off, the lists are equal. */
  lemma DecayOnlyTouchesFlag(ks: seq<Kudo>, now: int)
    ensures DisplaySent(Decay(ks, now)) == DisplaySent(ks)
  {
  }

  /** Decaying at `now1` and then at a later `now2` is decaying once at `now2`. */
  lemma DecayCompose(ks: seq<Kudo>, now1: int, now2: int)
    requires now1 <= now2
    ensures Decay(Decay(ks, now1), now2) == Decay(ks, now2)
  {
  }

  /** A sweep at the same instant as the fetch changes nothing. */
  lemma DecayIdempotent(ks: seq<Kudo>, now: int)
    ensures Decay(Decay(ks, now), now) == Decay(ks, now)
  {
  }

  /** The flag is monotone in time: still new at a later sweep means new at every earlier one. */
  lemma DecayMonotone(ks: seq<Kudo>, now1: int, now2: int, i: int)
    requires now1 <= now2 && 0 <= i < |ks|
    ensures Decay(ks, now2)[i].isNew ==> Decay(ks, now1)[i].isNew
  {
  }

  /** Decay keeps the ids in their order, which is what the list is keyed by. */
  lemma {:induction false} DecayKeepsIds(ks: seq<Kudo>, now: int, id: int)
    ensures forall i :: 0 <= i < |ks| ==> Decay(ks, now)[i].id == ks[i].id
    ensures CountId(Decay(ks, now), id) == CountId(ks, id)
  {
    if ks != [] {
      DecayKeepsIds(ks[1..], now, id);
      assert Decay(ks, now)[1..] == Decay(ks[1..], now);
    }
  }

  /** An arrival is never merged with a kudo of the same id already in the list. */
  lemma ArrivalKeepsDuplicates(k: Kudo, ks: seq<Kudo>)
    ensures CountId(Arrive(k, ks), k.id) == CountId(ks, k.id) + 1
  {
  }

  /**
   * A sweep after an arrival decays the list below it as before, and keeps
   * the arrival new exactly while it is inside the window.
   */
  lemma SweepAfterArrival(k: Kudo, ks: seq<Kudo>, now: int)
    ensures Decay(Arrive(k, ks), now)[0].isNew <==> WithinWindow(k.createdAt, now)
    ensures Decay(Arrive(k, ks), now)[1..] == Decay(ks, now)
  {
  }

  /** A kudo pushed at `t` is still new at `t + 119999` ms and no longer new at `t + 120000` ms. */
  lemma ArrivalFades(k: Kudo, ks: seq<Kudo>, t: int)
    requires k.createdAt == t
    ensures Decay(Arrive(k, ks), t + NewWindowMs - 1)[0].isNew
    ensures !Decay(Arrive(k, ks), t + NewWindowMs)[0].isNew
  {
  }

  /** What the first load fetches together. */
  datatype DashboardData = DashboardData(
    received: PaginatedResponse<Kudo>,
    sent: PaginatedResponse<Kudo>,
    remaining: RemainingKudosResponse,
    users: seq<User>)

  /** What the refresh after a successful send fetches together. */
  datatype RefreshData = RefreshData(
    received: PaginatedResponse<Kudo>,
    sent: PaginatedResponse<Kudo>,
    remaining: RemainingKudosResponse)

  /** The page's component state; each handler replaces some of it. */
  class DashboardPage {
    var kudos: seq<Kudo>
    var sentKudos: seq<Kudo>
    var remainingKudos: Option<int>
    var orgUsers: seq<User>
    var loading: bool
    var modalOpen: bool

    constructor ()
      ensures kudos == [] && sentKudos == [] && remainingKudos == None && orgUsers == []
      ensures loading && !modalOpen
    {
      kudos, sentKudos, remainingKudos, orgUsers := [], [], None, [];
      loading, modalOpen := true, false;
    }

    /**
     * The load effect. Does nothing without a signed-in user (`fetched` is
     * false); otherwise `batch` is the joint outcome of the four fetches,
     * taken at time `now`.
     */
    method LoadData(signedIn: bool, batch: Result<DashboardData, ApiError>, now: int) returns (fetched: bool)
      modifies this
      ensures fetched == signedIn
      ensures modalOpen == old(modalOpen)
      ensures !signedIn ==>
        kudos == old(kudos) && sentKudos == old(sentKudos) && remainingKudos == old(remainingKudos)
        && orgUsers == old(orgUsers) && loading == old(loading)
      ensures signedIn ==> !loading
      ensures signedIn && batch.Success? ==>
        && kudos == Decay(batch.value.received.results, now)
        && sentKudos == batch.value.sent.results
        && remainingKudos == Some(batch.value.remaining.remainingKudos)
        && orgUsers == batch.value.users
      ensures signedIn && batch.Failure? ==>
        kudos == old(kudos) && sentKudos == old(sentKudos) && remainingKudos == old(remainingKudos)
        && orgUsers == old(orgUsers)
    {
      if !signedIn {
        return false;
      }
      fetched := true;
      if batch.Success? {
        var data := batch.value;
        kudos := Decay(data.received.results, now);
        sentKudos := data.sent.results;
        remainingKudos := Some(data.remaining.remainingKudos);
        orgUsers := data.users;
      }
      loading := false;
    }

    /** One tick of the ten-second sweep at time `now`. */
    method Sweep(now: int)
      modifies this
      ensures kudos == Decay(old(kudos), now)
      ensures sentKudos == old(sentKudos) && remainingKudos == old(remainingKudos)
      ensures orgUsers == old(orgUsers) && loading == old(loading) && modalOpen == old(modalOpen)
    {
      kudos := Decay(kudos, now);
    }

    /** A kudo pushed over the realtime channel. */
    method HandleNewKudo(newKudo: Kudo)
      modifies this
      ensures kudos == Arrive(newKudo, old(kudos))
      ensures sentKudos == old(sentKudos) && remainingKudos == old(remainingKudos)
      ensures orgUsers == old(orgUsers) && loading == old(loading) && modalOpen == old(modalOpen)
    {
      kudos := Arrive(newKudo, kudos);
    }

    /** The refresh after a kudo was given; a failed batch changes nothing. */
    method HandleKudosGiven(batch: Result<RefreshData, ApiError>, now: int)
      modifies this
      ensures batch.Success? ==>
        && kudos == Decay(batch.value.received.results, now)
        && sentKudos == batch.value.sent.results
        && remainingKudos == Some(batch.value.remaining.remainingKudos)
      ensures batch.Failure? ==>
        kudos == old(kudos) && sentKudos == old(sentKudos) && remainingKudos == old(remainingKudos)
      ensures orgUsers == old(orgUsers) && loading == old(loading) && modalOpen == old(modalOpen)
    {
      if batch.Success? {
        var data := batch.value;
        kudos := Decay(data.received.results, now);
        sentKudos := data.sent.results;
        remainingKudos := Some(data.remaining.remainingKudos);
      }
    }

    /** A click on the Give-Kudos button, which opens the modal unless the button is disabled. */
    method ClickGiveKudos() returns (opens: bool)
      modifies this
      ensures opens <==> !GiveKudosDisabled(remainingKudos)
      ensures modalOpen == (opens || old(modalOpen))
      ensures kudos == old(kudos) && sentKudos == old(sentKudos) && remainingKudos == old(remainingKudos)
      ensures orgUsers == old(orgUsers) && loading == old(loading)
    {
      opens := !GiveKudosDisabled(remainingKudos);
      if opens {
        modalOpen := true;
      }
    }
  }

  /**
   * The realtime scenario: a kudo created at the moment it is pushed shows
   * at the top as new, and a sweep two minutes later has cleared its flag
   * while keeping it in place.
   */
  method ArrivalScenario(page: DashboardPage, k: Kudo, t: int)
    requires k.createdAt == t
    modifies page
  {
    page.HandleNewKudo(k);
    assert page.kudos[0].isNew && page.kudos[0].id == k.id;
    page.Sweep(t + NewWindowMs);
    SweepAfterArrival(k, old(page.kudos), t + NewWindowMs);
    assert !page.kudos[0].isNew && page.kudos[0].id == k.id;
  }
}
