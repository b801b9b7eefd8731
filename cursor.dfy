/**
 * The round-robin cursor `th_index` of the button poll task: the slot of the
 * task table that the next press of the user button toggles.
 */
module Cursor {

  /** MAX_TASKS_NUMBER: one task slot per LED colour. */
  const MAX_TASKS_NUMBER: nat := 4

  /**
   * One advance of the cursor on a press: `th_index` grows by one while it is
   * below MAX_TASKS_NUMBER - 1 and otherwise starts again at 0. For a cursor in
   * range this is the successor modulo MAX_TASKS_NUMBER.
   */
  function Next(c: nat): (r: nat)
    ensures r < MAX_TASKS_NUMBER
    ensures c < MAX_TASKS_NUMBER ==> r == (c + 1) % MAX_TASKS_NUMBER
  {
    if c < MAX_TASKS_NUMBER - 1 then c + 1 else 0
  }

  /** The cursor after `k` presses, starting from `c`. */
  function Advance(c: nat, k: nat): (r: nat)
    ensures k > 0 ==> r < MAX_TASKS_NUMBER
    decreases k
  {
    if k == 0 then c else Advance(Next(c), k - 1)
  }

  /** `k` presses move an in-range cursor `k` places round the table. */
  lemma {:induction false} AdvanceIsModular(c: nat, k: nat)
    requires c < MAX_TASKS_NUMBER
    ensures Advance(c, k) == (c + k) % MAX_TASKS_NUMBER
    decreases k
  {
    if k > 0 {
      AdvanceIsModular(Next(c), k - 1);
      if c == MAX_TASKS_NUMBER - 1 {
        assert (k - 1) % MAX_TASKS_NUMBER == (c + k) % MAX_TASKS_NUMBER by {
          assert c + k == (k - 1) + MAX_TASKS_NUMBER;
        }
      }
    }
  }

  /** Four presses bring the cursor back to where it was. */
  lemma FourPressesReturn(c: nat)
    requires c < MAX_TASKS_NUMBER
    ensures Advance(c, MAX_TASKS_NUMBER) == c
  {
    AdvanceIsModular(c, MAX_TASKS_NUMBER);
  }

  /**
   * From the power-on value 0, the k-th press targets slot k mod 4: the first
   * press toggles slot 1 (green), and slot 0 (red) is reached only by the fourth.
   */
  lemma PressTargetsFromPowerOn(k: nat)
    requires k >= 1
    ensures Advance(0, k) == k % MAX_TASKS_NUMBER
    ensures k == 1 ==> Advance(0, k) == 1
    ensures Advance(0, k) == 0 <==> k % MAX_TASKS_NUMBER == 0
  {
    AdvanceIsModular(0, k);
  }
}
