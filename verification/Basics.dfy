/** Values shared by every part of the model: options and IBC heights. */
module Basics {

  datatype Option<+T> = None | Some(value: T)

  type Byte = n: int | 0 <= n < 256

  type Bytes = seq<Byte>

  /** A block height: a revision number and, inside the revision, a height.
      Heights handed out by the source are never zero inside a revision. */
  datatype Height = Height(revision: nat, number: nat)

  /** The order of heights: revision first. */
  predicate Below(a: Height, b: Height) {
    a.revision < b.revision || (a.revision == b.revision && a.number < b.number)
  }

  predicate AtMost(a: Height, b: Height) {
    a == b || Below(a, b)
  }

  function MaxHeight(a: Height, b: Height): (m: Height)
    ensures AtMost(a, m) && AtMost(b, m) && (m == a || m == b)
  {
    if Below(a, b) then b else a
  }

  /** With heights below a bound, as 64-bit ones are, the order is that of one number with the revision in front. */
  lemma BelowIsNumeric(a: Height, b: Height, bound: nat)
    requires a.number < bound && b.number < bound
    ensures Below(a, b) <==> a.revision * bound + a.number < b.revision * bound + b.number
  {
    if a.revision < b.revision {
      Leap(a.revision, b.revision, bound);
    } else if b.revision < a.revision {
      Leap(b.revision, a.revision, bound);
    }
  }

  lemma {:induction false} Leap(r: nat, s: nat, bound: nat)
    requires r < s
    ensures r * bound + bound <= s * bound
    decreases s
  {
    if r + 1 < s {
      Leap(r, s - 1, bound);
    }
  }

  /** A timeout height: none, or a height after which the packet has expired. */
  datatype TimeoutHeight = Never | At(height: Height)

  predicate HasExpired(t: TimeoutHeight, now: Height) {
    t.At? && Below(t.height, now)
  }

  /** A packet has timed out on its destination when either limit lies strictly in the past. */
  predicate TimedOut(timeoutHeight: TimeoutHeight, timeoutTime: Option<nat>, now: Height, time: nat) {
    HasExpired(timeoutHeight, now) || (timeoutTime.Some? && timeoutTime.value < time)
  }
}
