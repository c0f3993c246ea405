/** A file descriptor read to its end, with reads of any length. */
module Streams {
  import opened Bytes

  /** What one read of at most `max` bytes returns: as much as there is, or less if the
      schedule says so, but never nothing before the end. */
  function Granted(schedule: seq<nat>, max: nat, available: nat): (n: nat)
    ensures n <= max && n <= available
    ensures n == 0 <==> max == 0 || available == 0
  {
    var most := Min(max, available);
    if schedule != [] && 0 < schedule[0] < most then schedule[0] else most
  }

  /** The schedule of the reads after the next one. */
  function Later(schedule: seq<nat>): seq<nat> {
    if schedule == [] then [] else schedule[1..]
  }

  /** Every result that `read` may have is the result under some schedule. */
  lemma {:induction false} AnyGrant(max: nat, available: nat, n: nat)
    requires 1 <= n <= max && n <= available
    ensures Granted([n], max, available) == n
  {
  }

  class ByteSource {
    /** What is still to be read. */
    var pending: seq<byte>
    /** How much each coming read would return if it could. */
    var schedule: seq<nat>

    constructor (contents: seq<byte>, schedule: seq<nat>)
      ensures pending == contents && this.schedule == schedule
    {
      pending := contents;
      this.schedule := schedule;
    }

    /** `read`: at least one byte unless at the end, and never more than asked for. */
    method Read(dest: array<byte>, at: nat, max: nat) returns (n: nat)
      requires at + max <= dest.Length && max > 0
      modifies this, dest
      ensures n <= max && n <= |old(pending)|
      ensures n == 0 <==> old(pending) == []
      ensures n == Granted(old(schedule), max, |old(pending)|) && schedule == Later(old(schedule))
      ensures pending == old(pending)[n..]
      ensures dest[..] == old(dest[..at]) + old(pending)[..n] + old(dest[at + n..])
    {
      n := Granted(schedule, max, |pending|);
      schedule := Later(schedule);
      var bytes := pending[..n];
      forall i | 0 <= i < n {
        dest[at + i] := bytes[i];
      }
      pending := pending[n..];
    }

    /** A read that is satisfied in full, as the header reads are taken to be. */
    method ReadWhole(n: nat) returns (bytes: seq<byte>)
      requires n <= |pending|
      modifies this
      ensures bytes == old(pending)[..n]
      ensures pending == old(pending)[n..]
    {
      bytes := pending[..n];
      pending := pending[n..];
    }
  }
}
