/** The client-side session store: credits, the user's name and Groq key,
    a capped history of recent agent activity, and a context object the
    agents share. Persistence to local storage is not part of this model. */
module SessionStore {
  import opened Common

  const InitialCredits: int := 50
  const HistoryCap: nat := 10

  datatype ActivityStatus = ActivityCompleted | ActivityInProgress | ActivityFailed

  /** A history entry; `id` is a millisecond clock reading and `timestamp`
      an ISO rendering from a second, separate reading, both taken when the
      entry is added. */
  datatype Activity = Activity(id: int, agent: string, title: string, timestamp: string, status: ActivityStatus)

  /** What a caller hands to `addActivity`: an activity without id and time. */
  datatype NewActivity = NewActivity(agent: string, title: string, status: ActivityStatus)

  // ---------------------------------------------------------------------
  // Credits

  datatype Deduction = Deduction(credits: int, granted: bool)

  /** `deductCredit` on a credit balance: one credit is taken when there is
      one, and the caller learns whether it was. */
  function Deduct(credits: int): (r: Deduction)
    ensures r.granted <==> credits > 0
    ensures r.credits == credits - (if r.granted then 1 else 0)
    ensures credits >= 0 ==> r.credits >= 0
  {
    if credits > 0 then Deduction(credits - 1, true) else Deduction(credits, false)
  }

  /** The balance after `n` calls of `deductCredit` in a row. */
  function CreditsAfter(credits: int, n: nat): int {
    if n == 0 then credits else Deduct(CreditsAfter(credits, n - 1)).credits
  }

  /** How many of `n` calls in a row were granted. */
  function GrantedOf(credits: int, n: nat): nat {
    if n == 0 then 0
    else GrantedOf(credits, n - 1) + (if Deduct(CreditsAfter(credits, n - 1)).granted then 1 else 0)
  }

  /** From a non-negative balance, repeated deductions stop at zero: `n`
      calls grant `min(credits, n)` of them and never go below zero. */
  lemma {:induction false} RepeatedDeductions(credits: int, n: nat)
    requires credits >= 0
    ensures CreditsAfter(credits, n) == if n <= credits then credits - n else 0
    ensures GrantedOf(credits, n) == Min(credits, n)
  {
    if n > 0 {
      RepeatedDeductions(credits, n - 1);
    }
  }

  /** A balance that is not positive is never granted a credit, however
      often `deductCredit` is called. */
  lemma {:induction false} NoCreditNoGrant(credits: int, n: nat)
    requires credits <= 0
    ensures CreditsAfter(credits, n) == credits
    ensures GrantedOf(credits, n) == 0
  {
    if n > 0 {
      NoCreditNoGrant(credits, n - 1);
    }
  }

  // ---------------------------------------------------------------------
  // Activity history and shared context

  /** The new entry first, then the previous ones, cut to the cap: the
      entries that fall off are the oldest. */
  function WithActivity(history: seq<Activity>, entry: Activity): (r: seq<Activity>)
    ensures |r| == Min(|history| + 1, HistoryCap)
    ensures r[0] == entry
    ensures forall k :: 1 <= k < |r| ==> r[k] == history[k - 1]
  {
    ([entry] + history)[..Min(|history| + 1, HistoryCap)]
  }

  /** Entries added one after another come out newest first, whatever the
      history held before. */
  lemma NewestFirst(history: seq<Activity>, first: Activity, second: Activity)
    ensures WithActivity(WithActivity(history, first), second)[..2] == [second, first]
  {
    var once := WithActivity(history, first);
    var twice := WithActivity(once, second);
    assert twice[1] == once[0];
  }

  /** Once the history is full it stays full: each new entry pushes out the
      oldest one. */
  lemma FullHistoryDropsOldest(history: seq<Activity>, entry: Activity)
    requires |history| == HistoryCap
    ensures WithActivity(history, entry) == [entry] + history[..HistoryCap - 1]
  {
  }

  /** The shared context with one key set; every other key keeps its value. */
  function WithContext(context: map<string, Json>, key: string, value: Json): (r: map<string, Json>)
    ensures r.Keys == context.Keys + {key}
    ensures r[key] == value
    ensures forall k :: k in context && k != key ==> r[k] == context[k]
  {
    context[key := value]
  }

  // ---------------------------------------------------------------------
  // The store

  class AppStore {
    var credits: int
    var userName: string
    var groqApiKey: string
    var recentActivity: seq<Activity>
    var sharedContext: map<string, Json>

    /** The state a new session starts from. */
    constructor ()
      ensures credits == InitialCredits
      ensures userName == "" && groqApiKey == ""
      ensures recentActivity == [] && sharedContext == map[]
    {
      credits := InitialCredits;
      userName := "";
      groqApiKey := "";
      recentActivity := [];
      sharedContext := map[];
    }

    method SetCredits(c: int)
      modifies this
      ensures credits == c
      ensures userName == old(userName) && groqApiKey == old(groqApiKey)
      ensures recentActivity == old(recentActivity) && sharedContext == old(sharedContext)
    {
      credits := c;
    }

    /** Reads the balance, then writes it back one lower when positive. */
    method DeductCredit() returns (granted: bool)
      modifies this
      ensures Deduction(credits, granted) == Deduct(old(credits))
      ensures userName == old(userName) && groqApiKey == old(groqApiKey)
      ensures recentActivity == old(recentActivity) && sharedContext == old(sharedContext)
    {
      var current := credits;
      if current > 0 {
        credits := current - 1;
        return true;
      }
      return false;
    }

    method ResetCredits()
      modifies this
      ensures credits == InitialCredits
      ensures userName == old(userName) && groqApiKey == old(groqApiKey)
      ensures recentActivity == old(recentActivity) && sharedContext == old(sharedContext)
    {
      credits := InitialCredits;
    }

    method SetUserName(name: string)
      modifies this
      ensures userName == name
      ensures credits == old(credits) && groqApiKey == old(groqApiKey)
      ensures recentActivity == old(recentActivity) && sharedContext == old(sharedContext)
    {
      userName := name;
    }

    method SetGroqApiKey(key: string)
      modifies this
      ensures groqApiKey == key
      ensures credits == old(credits) && userName == old(userName)
      ensures recentActivity == old(recentActivity) && sharedContext == old(sharedContext)
    {
      groqApiKey := key;
    }

    /** `now` is `Date.now()` and `isoNow` is `new Date().toISOString()`. */
    method AddActivity(activity: NewActivity, now: int, isoNow: string)
      modifies this
      ensures recentActivity
        == WithActivity(old(recentActivity), Activity(now, activity.agent, activity.title, isoNow, activity.status))
      ensures credits == old(credits) && userName == old(userName) && groqApiKey == old(groqApiKey)
      ensures sharedContext == old(sharedContext)
    {
      var entry := Activity(now, activity.agent, activity.title, isoNow, activity.status);
      var all := [entry] + recentActivity;
      recentActivity := all[..Min(|all|, HistoryCap)];
    }

    method UpdateSharedContext(key: string, value: Json)
      modifies this
      ensures sharedContext == WithContext(old(sharedContext), key, value)
      ensures credits == old(credits) && userName == old(userName) && groqApiKey == old(groqApiKey)
      ensures recentActivity == old(recentActivity)
    {
      sharedContext := sharedContext[key := value];
    }
  }
}
