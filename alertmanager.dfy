/**
 * The inbound side: one alert of an Alertmanager webhook batch, the
 * default-taking lookups the renderer does on it, and the two status
 * counts that decide the card header.
 */
module Alertmanager {
  import opened Wrappers

  /**
   * One alert as the renderer sees it.  `status` is free text: the
   * renderer only compares it with "firing" and "resolved".  A `labels`
   * or `annotations` object the payload omits is the empty map; an
   * omitted `startsAt`, `endsAt` or `generatorURL` is `None`.
   */
  datatype Alert = Alert(
    status: string,
    labels: map<string, string>,
    annotations: map<string, string>,
    startsAt: Option<string>,
    endsAt: Option<string>,
    generatorURL: Option<string>)

  const Firing := "firing"
  const Resolved := "resolved"

  /** `m.get(key, default)`: a key that is present wins even when its value is empty. */
  function Lookup(m: map<string, string>, key: string, default: string): (v: string)
    ensures key in m ==> v == m[key]
    ensures key !in m ==> v == default
  {
    if key in m then m[key] else default
  }

  /** `if m.get(key):` — the key is present and its value is a non-empty string. */
  predicate HasText(m: map<string, string>, key: string)
  {
    key in m && m[key] != ""
  }

  /** `len([a for a in alerts if a["status"] == status])`. */
  function CountStatus(alerts: seq<Alert>, status: string): (n: nat)
    ensures n <= |alerts|
  {
    if alerts == [] then 0
    else (if alerts[0].status == status then 1 else 0) + CountStatus(alerts[1..], status)
  }

  function FiringCount(alerts: seq<Alert>): nat { CountStatus(alerts, Firing) }

  function ResolvedCount(alerts: seq<Alert>): nat { CountStatus(alerts, Resolved) }

  /** A status is counted at least once exactly when some alert carries it. */
  lemma {:induction false} CountPositiveIff(alerts: seq<Alert>, status: string)
    ensures CountStatus(alerts, status) > 0 <==> exists i :: 0 <= i < |alerts| && alerts[i].status == status
  {
    if alerts != [] {
      CountPositiveIff(alerts[1..], status);
      if alerts[0].status != status && CountStatus(alerts, status) == 0 {
        forall i | 0 <= i < |alerts| ensures alerts[i].status != status {
          if i > 0 { assert alerts[i] == alerts[1..][i - 1]; }
        }
      }
      if CountStatus(alerts[1..], status) > 0 {
        var j :| 0 <= j < |alerts[1..]| && alerts[1..][j].status == status;
        assert alerts[j + 1].status == status;
      }
    }
  }

  /** A status is counted `|alerts|` times exactly when every alert carries it. */
  lemma {:induction false} CountAllIff(alerts: seq<Alert>, status: string)
    ensures CountStatus(alerts, status) == |alerts| <==> forall i :: 0 <= i < |alerts| ==> alerts[i].status == status
  {
    if alerts != [] {
      CountAllIff(alerts[1..], status);
      if CountStatus(alerts, status) == |alerts| {
        forall i | 0 <= i < |alerts| ensures alerts[i].status == status {
          if i > 0 { assert alerts[i] == alerts[1..][i - 1]; }
        }
      }
      if forall i :: 0 <= i < |alerts| ==> alerts[i].status == status {
        forall i | 0 <= i < |alerts[1..]| ensures alerts[1..][i].status == status {
          assert alerts[1..][i] == alerts[i + 1];
        }
      }
    }
  }

  /**
   * Each alert is counted at most once: the two counts never exceed the
   * batch size, and they add up to it exactly when no alert has any other status.
   */
  lemma {:induction false} CountsPartition(alerts: seq<Alert>)
    ensures FiringCount(alerts) + ResolvedCount(alerts) <= |alerts|
    ensures FiringCount(alerts) + ResolvedCount(alerts) == |alerts| <==>
      forall i :: 0 <= i < |alerts| ==> alerts[i].status == Firing || alerts[i].status == Resolved
  {
    if alerts != [] {
      CountsPartition(alerts[1..]);
      var tail := alerts[1..];
      if FiringCount(alerts) + ResolvedCount(alerts) == |alerts| {
        forall i | 0 <= i < |alerts| ensures alerts[i].status == Firing || alerts[i].status == Resolved {
          if i > 0 { assert alerts[i] == tail[i - 1]; }
        }
      }
      if forall i :: 0 <= i < |alerts| ==> alerts[i].status == Firing || alerts[i].status == Resolved {
        forall i | 0 <= i < |tail| ensures tail[i].status == Firing || tail[i].status == Resolved {
          assert tail[i] == alerts[i + 1];
        }
      }
    }
  }
}
