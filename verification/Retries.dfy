/** How long a failed command or operation waits before it is taken up again. */
module Retries {
  /** `retry_backoff_seconds`, of the runtime worker and of storage maintenance alike. */
  function RetryBackoff(attempts: nat): nat {
    if attempts <= 1 then 10
    else if attempts == 2 then 20
    else if attempts == 3 then 40
    else if attempts == 4 then 80
    else if attempts == 5 then 160
    else 300
  }

  function Doubled(seconds: nat, times: nat): nat { if times == 0 then seconds else 2 * Doubled(seconds, times - 1) }

  /** Five seconds, doubled once per attempt and at least once, and never more than five minutes. */
  lemma BackoffDoubles(attempts: nat)
    ensures var wanted := Doubled(5, if attempts < 1 then 1 else attempts);
            RetryBackoff(attempts) == if wanted > 300 then 300 else wanted
  {
    if attempts > 6 { DoublingGrows(5, 6, attempts); }
  }

  lemma {:induction false} DoublingGrows(seconds: nat, few: nat, many: nat)
    requires few <= many
    ensures Doubled(seconds, few) <= Doubled(seconds, many)
  {
    if few < many { DoublingGrows(seconds, few, many - 1); }
  }
}
