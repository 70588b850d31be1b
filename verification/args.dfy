/**
 * The argument cursor a command handler receives: the whitespace-separated
 * tokens of the message after the command name, and a read position that
 * `Single` advances and `Rewind` moves back by one token. The framework's
 * own cursor is not part of this model; how it behaves here (one step of
 * rewind, a count of the remaining tokens, the rest re-joined with single
 * spaces) is this model's choice.
 */
module Arguments {
  import opened Wrappers
  import Text

  class Args {
    const tokens: seq<string>
    var offset: nat
    /** True right after a successful `Single`: only then may `Rewind` move back. */
    var canRewind: bool

    ghost predicate Valid()
      reads this
    {
      && offset <= |tokens|
      && (canRewind ==> offset > 0)
      && forall i :: 0 <= i < |tokens| ==> tokens[i] != ""
    }

    /** The tokens not yet consumed. */
    ghost function Remaining(): seq<string>
      reads this
      requires Valid()
    {
      tokens[offset..]
    }

    constructor (tokens: seq<string>)
      requires forall i :: 0 <= i < |tokens| ==> tokens[i] != ""
      ensures Valid() && this.tokens == tokens && offset == 0 && !canRewind
    {
      this.tokens := tokens;
      offset := 0;
      canRewind := false;
    }

    /** `args.single::<String>()`: consume one token, or fail when none is left. */
    method Single() returns (r: Option<string>)
      requires Valid()
      modifies this
      ensures Valid()
      ensures old(offset) < |tokens| ==>
        r == Some(tokens[old(offset)]) && offset == old(offset) + 1 && canRewind
      ensures old(offset) == |tokens| ==>
        r == None && offset == old(offset) && canRewind == old(canRewind)
    {
      if offset < |tokens| {
        r := Some(tokens[offset]);
        offset := offset + 1;
        canRewind := true;
      } else {
        r := None;
      }
    }

    /** `args.rewind()`: put back the token consumed last. In this model a second rewind is a no-op. */
    method Rewind()
      requires Valid()
      modifies this
      ensures Valid() && !canRewind
      ensures offset == if old(canRewind) then old(offset) - 1 else old(offset)
    {
      if canRewind {
        offset := offset - 1;
        canRewind := false;
      }
    }

    /** `args.is_empty()`: no token is left. */
    method IsEmpty() returns (b: bool)
      requires Valid()
      ensures b <==> Remaining() == []
    {
      b := offset == |tokens|;
    }

    /** `args.len()`, modelled as the number of tokens left to read. */
    method Len() returns (n: nat)
      requires Valid()
      ensures n == |Remaining()|
    {
      n := |tokens| - offset;
    }

    /** `args.rest()`, modelled as the unconsumed tokens re-joined with single spaces, without consuming them. */
    method Rest() returns (s: string)
      requires Valid()
      ensures s == Text.Join(Remaining(), " ")
      ensures s == "" <==> Remaining() == []
    {
      s := Text.Join(tokens[offset..], " ");
      Text.JoinEmptyIff(tokens[offset..], " ");
    }
  }
}
