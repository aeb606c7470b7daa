/**
 * The `stats` and `dashboard` dictionaries and the constants shared by the
 * scripts that take a toll (v1.py, v2.py, withPayment.py,
 * withPayment-copy2.py), and the same-plate cooldown of the scripts that
 * decide on detection.
 */
module Records {

  /** Every script credits a fixed 50 per approval. */
  const TOLL: nat := 50

  /** `COOLDOWN` / `COOLDOWN_SECONDS`: seconds a repeated plate is ignored. */
  const COOLDOWN: nat := 3

  /** `stats = {"total", "approved", "rejected", "manual_approved"}` */
  datatype Stats = Stats(total: nat, approved: nat, rejected: nat, manualApproved: nat)

  /** `dashboard = {"plate", "status", "gate", "payment", "cash"}` */
  datatype Dashboard = Dashboard(plate: string, status: string, gate: string, payment: string, cash: string)

  function NoCounts(): Stats
  {
    Stats(0, 0, 0, 0)
  }

  /**
   * The books balance: every processed plate was approved or rejected, and
   * the cash is one toll per automatic or manual approval.
   */
  predicate Balanced(stats: Stats, totalCash: int)
  {
    && stats.total == stats.approved + stats.rejected
    && totalCash == TOLL * (stats.approved + stats.manualApproved)
  }

  /** No counter went down. */
  predicate NoDecrease(before: Stats, after: Stats)
  {
    && before.total <= after.total
    && before.approved <= after.approved
    && before.rejected <= after.rejected
    && before.manualApproved <= after.manualApproved
  }

  /**
   * `plate != last_plate or now - last_time > COOLDOWN`: a plate is taken
   * unless it repeats the last one within the cooldown (strictly).
   */
  predicate OutsideCooldown(plate: string, now: int, lastPlate: string, lastTime: int)
  {
    plate != lastPlate || now - lastTime > COOLDOWN
  }
}
