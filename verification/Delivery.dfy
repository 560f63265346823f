/** CRM deliveries against disconnects, saves and the settings page: a slow send
    works on a copy of the configuration and may write back only what it is allowed
    to, while the page writes its whole copy back without a lock. */
module Delivery {
  import opened Prelude

  type Config = map<string, string>

  const CACHE_KEYS: set<string> := {"crm_mode", "crm_mode_checked_at", "crm_mode_assumed"}
  const URL := "webhook_url"
  const KOTIB_KEY := "doocall_api_key"

  datatype Row = Row(enabled: bool, config: Config)

  function Get(c: Config, key: string): Option<string> { if key in c then Some(c[key]) else None }

  // ---- One delivery ----

  /** What a send leaves behind: its working copy, and whether the CRM said the
      connection is gone for good. */
  datatype Sent = Sent(work: Config, gone: bool)

  /** The cache keys the send refreshed. */
  function Refreshed(before: Config, work: Config): Config
  {
    map k | k in work && k in CACHE_KEYS && Get(before, k) != Some(work[k]) :: work[k]
  }

  /** The stored row is still the one the send started from: enabled, same URL. */
  predicate Current(row: Row, sentTo: Option<string>)
  {
    row.enabled && Get(row.config, URL) == sentTo
  }

  function MergeCache(row: Row, cache: Config, sentTo: Option<string>): Row
  {
    if Current(row, sentTo) then row.(config := row.config + cache) else row
  }

  function DisableKotib(row: Row, sentTo: Option<string>): Row
  {
    if Current(row, sentTo) then Row(false, row.config - {KOTIB_KEY}) else row
  }

  // ---- The settings page's writers ----

  const CALL_TOKEN := "c2c_token"
  const ANALYSIS_TOKEN := "analysis_token"
  const ANALYSIS_SECRET := "analysis_secret"

  predicate PendingKey(key: string) { "pending_" <= key }

  predicate Blank(v: string) { forall c :: c in v ==> c in {' ', '\t', '\n', '\r'} }

  predicate Missing(c: Config, key: string) { key !in c || c[key] == "" }

  /** What a request does to the copy of the row it holds before it writes the
      configuration back. `Stage` and `Unstage` are a Kotib save that has not been
      answered yet, and one that was refused. */
  datatype Edit =
    | IssueCallToken(token: string)
    | IssueAnalysisToken(token: string)
    | RotateAnalysisToken(token: string)
    | SaveAnalysisSecret(secret: string)
    | Retest(mode: string, checkedAt: string, assumed: string)
    | Stage(key: string, deadline: string)
    | Unstage

  /** The configuration written, or None if the request stops before writing. Each
      looks at its own copy only, and none writes the enabled column. */
  function Written(copy: Row, e: Edit): Option<Config>
  {
    var c := copy.config;
    match e
    case IssueCallToken(token) =>
      if URL in c && !Blank(c[URL]) && Missing(c, CALL_TOKEN) then Some(c[CALL_TOKEN := token]) else None
    case IssueAnalysisToken(token) =>
      if copy.enabled && Missing(c, ANALYSIS_TOKEN) then Some(c[ANALYSIS_TOKEN := token]) else None
    case RotateAnalysisToken(token) => if copy.enabled && c != map[] then Some(c[ANALYSIS_TOKEN := token]) else None
    case SaveAnalysisSecret(secret) => if copy.enabled && c != map[] then Some(c[ANALYSIS_SECRET := secret]) else None
    case Retest(mode, checkedAt, assumed) =>
      if c != map[]
      then Some(c["crm_mode" := mode]["crm_mode_checked_at" := checkedAt]["crm_mode_assumed" := assumed]) else None
    case Stage(key, deadline) =>
      Some(c["pending_doocall_api_key" := key]["pending_doocall_api_key_until" := deadline])
    case Unstage => Some(map k | k in c && !PendingKey(k) :: c[k])
  }

  ghost predicate SameBut(c: Config, d: Config, keys: set<string>)
  {
    forall k :: k !in keys ==> Get(c, k) == Get(d, k)
  }

  /** What each request writes into its copy, and that it keeps the rest. */
  lemma WrittenExactly(copy: Row, e: Edit)
    requires Written(copy, e).Some?
    ensures var c, d := copy.config, Written(copy, e).value;
            match e
            case IssueCallToken(token) => SameBut(c, d, {"c2c_token"}) && Get(d, "c2c_token") == Some(token)
            case IssueAnalysisToken(token) => SameBut(c, d, {"analysis_token"})
                  && Get(d, "analysis_token") == Some(token)
            case RotateAnalysisToken(token) => SameBut(c, d, {"analysis_token"})
                  && Get(d, "analysis_token") == Some(token)
            case SaveAnalysisSecret(secret) => SameBut(c, d, {"analysis_secret"})
                  && Get(d, "analysis_secret") == Some(secret)
            case Retest(mode, checkedAt, assumed) =>
              SameBut(c, d, CACHE_KEYS) && Get(d, "crm_mode") == Some(mode)
            case Stage(key, deadline) =>
              && SameBut(c, d, {"pending_doocall_api_key", "pending_doocall_api_key_until"})
              && Get(d, "pending_doocall_api_key") == Some(key)
            case Unstage => forall k :: Get(d, k) == if "pending_" <= k then None else Get(c, k)
  {
  }

  // ---- Many deliveries, disconnects, saves and edits ----

  /** A delivery has read the row, then its send ended, then it disabled the row
      if told to, then it merged its cache. */
  datatype Phase = NotStarted | Sending(before: Config) | Answered(before: Config,
        sent: Sent) | Merging(before: Config, sent: Sent)

  /** `copies` are the rows held by requests of the settings page, as read or last
      written by each; `saves` counts the saves that went through. */
  datatype World = World(row: Row, phases: map<nat, Phase>, copies: map<nat, Row>, saves: nat)

  datatype Act =
    | Start(w: nat)
    | SendEnds(w: nat, sent: Sent)
    | Disable(w: nat)
    | Merge(w: nat)
    | Disconnect
    | Save(enabled: bool, config: Config)
    | Look(e: nat)
    | Write(e: nat, edit: Edit)

  function PhaseOf(s: World, w: nat): Phase { if w in s.phases then s.phases[w] else NotStarted }

  function Step(s: World, a: Act): World
  {
    match a
    case Start(w) => if s.row.enabled then s.(phases := s.phases[w := Sending(s.row.config)]) else s
    case SendEnds(w, sent) =>
      (match PhaseOf(s, w)
       case Sending(before) => s.(phases := s.phases[w := Answered(before, sent)])
       case _ => s)
    case Disable(w) =>
      (match PhaseOf(s, w)
       case Answered(before, sent) =>
         var row := if sent.gone then DisableKotib(s.row, Get(before, URL)) else s.row;
         s.(row := row, phases := s.phases[w := Merging(before, sent)])
       case _ => s)
    case Merge(w) =>
      (match PhaseOf(s, w)
       case Merging(before, sent) =>
         s.(row := MergeCache(s.row, Refreshed(before, sent.work), Get(before, URL)),
            phases := s.phases[w := NotStarted])
       case _ => s)
    case Disconnect => s.(row := Row(false, map[]))
    case Save(enabled, config) => s.(row := Row(enabled, config), saves := s.saves + 1)
    case Look(e) => s.(copies := s.copies[e := s.row])
    case Write(e, edit) =>
      if e in s.copies && Written(s.copies[e], edit).Some? then
        var config := Written(s.copies[e], edit).value;
        s.(row := s.row.(config := config), copies := s.copies[e := s.copies[e].(config := config)])
      else s
  }

  function Run(s: World, acts: seq<Act>): World
  {
    if acts == [] then s else Step(Run(s, acts[..|acts| - 1]), acts[|acts| - 1])
  }

  predicate ByDelivery(a: Act) { a.Start? || a.SendEnds? || a.Disable? || a.Merge? }

  /** The configurations differ at most in the CRM-mode cache. */
  predicate SameButCache(c: Config, d: Config)
  {
    && (forall k :: k in c && k !in CACHE_KEYS ==> k in d && d[k] == c[k])
    && (forall k :: k in d && k !in CACHE_KEYS ==> k in c)
    && (forall k :: k in c ==> k in d)
  }

  /** A delivery's whole effect on the stored row: nothing; or the cache keys it
      refreshed, on a row still enabled at the URL it sent to; or, told the
      connection is gone, that row disabled and its public key dropped. */
  lemma DeliveryTouchesOnlyItsOwn(s: World, a: Act)
    requires ByDelivery(a)
    ensures var t := Step(s, a);
            || t.row == s.row
            || (&& a.Merge? && PhaseOf(s, a.w).Merging?
                && Current(s.row, Get(PhaseOf(s, a.w).before, URL))
                && t.row.enabled && SameButCache(s.row.config, t.row.config)
                && Get(t.row.config, URL) == Get(s.row.config, URL)
                && forall k :: k in t.row.config && Get(s.row.config, k) != Some(t.row.config[k])
                               ==> Get(PhaseOf(s, a.w).sent.work, k) == Some(t.row.config[k]))
            || (&& a.Disable? && PhaseOf(s, a.w).Answered? && PhaseOf(s, a.w).sent.gone
                && Current(s.row, Get(PhaseOf(s, a.w).before, URL))
                && !t.row.enabled && t.row.config == s.row.config - {KOTIB_KEY})
  {
    assert URL !in CACHE_KEYS;
  }

  /** And what it has to do: told the connection is gone it disables a current row and
      revokes its key, and it brings a current row every cache key it refreshed. */
  lemma DeliveryDoesItsPart(s: World, w: nat)
    ensures PhaseOf(s, w).Answered? && PhaseOf(s, w).sent.gone
            && s.row.enabled && Get(s.row.config, URL) == Get(PhaseOf(s, w).before, URL) ==>
              Step(s, Disable(w)).row == Row(false, s.row.config - {"doocall_api_key"})
    ensures PhaseOf(s, w).Merging? && s.row.enabled && Get(s.row.config, URL) == Get(PhaseOf(s, w).before, URL) ==>
              forall k :: k in CACHE_KEYS ==>
                var work, before := PhaseOf(s, w).sent.work, PhaseOf(s, w).before;
                Get(Step(s, Merge(w)).row.config, k) ==
                  if k in work && Get(before, k) != Some(work[k]) then Some(work[k]) else Get(s.row.config, k)
  {
  }

  predicate Wiped(row: Row) { row == Row(false, map[]) }

  /** What fills a wiped row again, read off the state before: a save that leaves
      something, or a request writing back a copy that is not empty. */
  predicate Refills(s: World, a: Act)
  {
    match a
    case Save(enabled, config) => enabled || config != map[]
    case Write(e, edit) =>
      e in s.copies && Written(s.copies[e], edit).Some? && Written(s.copies[e], edit).value != map[]
    case _ => false
  }

  /** No delivery, however late, is among them. */
  lemma RefilledIff(s: World, a: Act)
    requires Wiped(s.row)
    ensures !Wiped(Step(s, a).row) <==> Refills(s, a)
  {
    hide Written;
  }

  predicate NeverRefilled(s: World, acts: seq<Act>)
  {
    acts != [] ==> NeverRefilled(s, acts[..|acts| - 1]) && !Refills(Run(s, acts[..|acts| - 1]), acts[|acts| - 1])
  }

  /** In every interleaving a wiped configuration stays wiped throughout exactly when
      no save and no write-back of a non-empty copy comes. */
  lemma {:induction false} WipedStaysWiped(s: World, acts: seq<Act>)
    requires Wiped(s.row)
    ensures NeverRefilled(s, acts) <==> forall k :: 0 <= k <= |acts| ==> Wiped(Run(s, acts[..k]).row)
  {
    if acts == [] {
      assert Run(s, acts) == s;
    } else {
      hide Step, Refills, Wiped;
      var front, last := acts[..|acts| - 1], acts[|acts| - 1];
      WipedStaysWiped(s, front);
      Prefixes(acts);
      if Wiped(Run(s, front).row) {
        RefilledIff(Run(s, front), last);
      }
    }
  }

  /** A request that read the row after the wipe can refill it in one way only: by
      staging a new Kotib connection. */
  lemma WipedCopies(copy: Row, edit: Edit)
    requires Wiped(copy)
    ensures Written(copy, edit).Some? && Written(copy, edit).value != map[] <==> edit.Stage?
  {
    if edit.Stage? {
      assert "pending_doocall_api_key" in Written(copy, edit).value;
    }
  }

  /** So if nobody holds a copy read before the disconnect, only a save, accepted or
      being tried, ends the wipe. */
  lemma {:induction false} WipedWithNobodyEditing(s: World, acts: seq<Act>)
    requires Wiped(s.row) && forall e :: e in s.copies ==> Wiped(s.copies[e])
    requires forall i :: 0 <= i < |acts| ==> !acts[i].Save? && !(acts[i].Write? && acts[i].edit.Stage?)
    ensures var t := Run(s, acts); Wiped(t.row) && forall e :: e in t.copies ==> Wiped(t.copies[e])
  {
    if acts != [] {
      hide Written;
      var front, last := acts[..|acts| - 1], acts[|acts| - 1];
      WipedWithNobodyEditing(s, front);
      var t := Run(s, front);
      RefilledIff(t, last);
      if last.Write? && last.e in t.copies {
        WipedCopies(t.copies[last.e], last.edit);
      }
    }
  }

  /** But a save that was refused undoes a disconnect made while it waited: it writes
      back the configuration it had read, all but its own pending keys. The row stays
      disabled, and wiped only if there was nothing else in it. */
  lemma RefusedSaveUndoesDisconnect(s: World, e: nat, key: string, deadline: string)
    ensures var t := Run(s, [Look(e), Write(e, Stage(key, deadline)), Disconnect, Write(e, Unstage)]);
            && !t.row.enabled && t.saves == s.saves
            && t.row.config == (map k | k in s.row.config && !PendingKey(k) :: s.row.config[k])
            && (Wiped(t.row) <==> forall k :: k in s.row.config ==> PendingKey(k))
  {
    RunFour(s, Look(e), Write(e, Stage(key, deadline)), Disconnect, Write(e, Unstage));
    assert PendingKey("pending_doocall_api_key") && PendingKey("pending_doocall_api_key_until");
    var kept := map k | k in s.row.config && !PendingKey(k) :: s.row.config[k];
    if k :| k in s.row.config && !PendingKey(k) {
      assert k in kept;
    }
  }

  lemma RunFour(s: World, a: Act, b: Act, c: Act, d: Act)
    ensures Run(s, [a, b, c, d]) == Step(Step(Step(Step(s, a), b), c), d)
  {
    hide Step;
    assert [a, b, c, d][..3] == [a, b, c] && [a, b, c][..2] == [a, b] && [a, b][..1] == [a] && [a][..0] == [];
    assert Run(s, []) == s && Run(s, [a]) == Step(s, a) && Run(s, [a, b]) == Step(Step(s, a), b);
    assert Run(s, [a, b, c]) == Step(Step(Step(s, a), b), c);
  }

  // ---- No save, no new settings ----

  /** Settings proper: not the mode cache, not a generated token or secret, and not a
      save in progress. */
  predicate Setting(key: string)
  {
    key !in CACHE_KEYS && key != CALL_TOKEN && key != ANALYSIS_TOKEN && key != ANALYSIS_SECRET && !PendingKey(key)
  }

  /** Every setting of `c` has the value it had in the row or in a copy of `s`. */
  predicate Known(s: World, c: Config)
  {
    forall k :: k in c && Setting(k) ==>
      Get(s.row.config, k) == Some(c[k]) || exists e :: e in s.copies && Get(s.copies[e].config, k) == Some(c[k])
  }

  lemma WritesNoSetting(s: World, copy: Row, edit: Edit)
    requires Known(s, copy.config) && Written(copy, edit).Some?
    ensures Known(s, Written(copy, edit).value)
  {
    assert PendingKey("pending_doocall_api_key") && PendingKey("pending_doocall_api_key_until");
    forall k | k in Written(copy, edit).value
          && Setting(k) ensures Get(copy.config, k) == Some(Written(copy, edit).value[k]) {
    }
  }

  lemma DeliveryWritesNoSetting(s: World, t: World, a: Act)
    requires Known(s, t.row.config) && ByDelivery(a)
    ensures Known(s, Step(t, a).row.config) && Step(t, a).copies == t.copies
  {
    DeliveryTouchesOnlyItsOwn(t, a);
  }

  /** Until a save goes through, no setting gets a value it did not have in the row or
      in a copy some request already held, and a disabled row stays disabled. */
  lemma {:induction false} NoSaveNoNewSettings(s: World, acts: seq<Act>)
    requires Run(s, acts).saves == s.saves
    ensures Known(s, Run(s, acts).row.config)
    ensures forall e :: e in Run(s, acts).copies ==> Known(s, Run(s, acts).copies[e].config)
    ensures Run(s, acts).row.enabled ==> s.row.enabled
  {
    hide Setting, Written;
    if acts != [] {
      hide Known;
      SavesOnlyGrow(s, acts[..|acts| - 1]);
      NoSaveNoNewSettings(s, acts[..|acts| - 1]);
      var t, a := Run(s, acts[..|acts| - 1]), acts[|acts| - 1];
      if ByDelivery(a) {
        DeliveryWritesNoSetting(s, t, a);
        DeliveryTouchesOnlyItsOwn(t, a);
      } else if a.Write? && a.e in t.copies && Written(t.copies[a.e], a.edit).Some? {
        WritesNoSetting(s, t.copies[a.e], a.edit);
      } else if a.Disconnect? {
        NothingIsKnown(s);
      }
    }
  }

  lemma NothingIsKnown(s: World)
    ensures Known(s, map[])
  {
  }

  lemma {:induction false} SavesOnlyGrow(s: World, acts: seq<Act>)
    ensures Run(s, acts).saves >= s.saves
  {
    if acts != [] {
      SavesOnlyGrow(s, acts[..|acts| - 1]);
    }
  }

  /** But "the same URL" is not "the same connection": settings saved again at the
      same URL while a send runs still receive the older send's cache. */
  lemma ResaveAtSameUrlTakesOldCache(s: World, w: nat, before: Config, sent: Sent, enabled: bool, config: Config,
        key: string)
    requires PhaseOf(s, w) == Merging(before, sent)
    requires key in sent.work && key in CACHE_KEYS && Get(before, key) != Some(sent.work[key])
    ensures var saved := Step(s, Save(enabled, config));
            && (Get(Step(saved, Merge(w)).row.config, key) == Some(sent.work[key])
                <==> ((enabled && Get(config, URL) == Get(before, URL)) || Get(config, key) == Some(sent.work[key])))
  {
  }

  // ---- The integration row, changed in place ----

  class Integration {
    var enabled: bool
    var config: Config

    function View(): Row
      reads this
    {
      Row(enabled, config)
    }

    constructor (config: Config)
      ensures View() == Row(true, config)
    {
      enabled, this.config := true, config;
    }

    method Merge(cache: Config, sentTo: Option<string>) returns (ok: bool)
      modifies this
      ensures View() == MergeCache(old(View()), cache, sentTo) && ok == Current(old(View()), sentTo)
    {
      ok := Current(View(), sentTo);
      if ok {
        config := config + cache;
      }
    }

    method DisableNow(sentTo: Option<string>) returns (ok: bool)
      modifies this
      ensures View() == DisableKotib(old(View()), sentTo) && ok == Current(old(View()), sentTo)
    {
      ok := Current(View(), sentTo);
      if ok {
        enabled, config := false, config - {KOTIB_KEY};
      }
    }

    /** A delivery with nothing racing it: disable if told to, then merge, which a
        disabled row refuses. */
    method Deliver(sent: Sent)
      modifies this
      ensures var before := old(View());
              if before.enabled && sent.gone then View() == Row(false, before.config - {KOTIB_KEY})
              else if before.enabled then View() == Row(true, before.config + Refreshed(before.config, sent.work))
              else View() == before
    {
      var before := config;
      if sent.gone {
        var disabled := DisableNow(Get(before, URL));
      }
      var cache := Refreshed(before, sent.work);
      if cache != map[] {
        var merged := Merge(cache, Get(before, URL));
      }
    }
  }
}
