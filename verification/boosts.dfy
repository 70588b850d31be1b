/**
 * The two boost listings (`boosts` for moderators, `list_boosts` for the
 * manage group): walk the guild's member stream, keep the members that boost
 * the server, and list them in one embed description.
 */
module Boosts {
  import opened Wrappers
  import Text
  import Util
  import opened Embeds

  datatype User = User(name: string, discriminator: Util.U16)

  /** A guild member; `premiumSince` is the boost start, already formatted as a date. */
  datatype Member = Member(user: User, premiumSince: Option<string>)

  /** One item of the member stream: a member, or a failed fetch. */
  datatype MemberResult = Fetched(member: Member) | FetchError

  datatype Boosting = Boosting(member: Member, since: string)

  const EmbedTitle := "Members boosting this server"
  const NoBoostersError := "Couldn't find any members boosting this server"
  const NoBoostersContent := "Couldn't find any members boosting this server!"

  predicate IsBoostOf(item: MemberResult, b: Boosting)
  {
    item == Fetched(b.member) && b.member.premiumSince == Some(b.since)
  }

  /** What one stream item contributes to the collection. */
  function Collected(item: MemberResult): seq<Boosting>
  {
    if item.Fetched? && item.member.premiumSince.Some? then
      [Boosting(item.member, item.member.premiumSince.value)]
    else []
  }

  /** The collection after reading `stream`: fetched members with a boost date, in stream order. */
  function BoostingMembers(stream: seq<MemberResult>): (r: seq<Boosting>)
    ensures |r| <= |stream|
  {
    if stream == [] then []
    else BoostingMembers(stream[..|stream| - 1]) + Collected(stream[|stream| - 1])
  }

  /** A booster is collected exactly when some stream item is that member, fetched, with that boost date. */
  lemma {:induction false} BoostingMembersMembership(stream: seq<MemberResult>, b: Boosting)
    ensures b in BoostingMembers(stream) <==> exists i :: 0 <= i < |stream| && IsBoostOf(stream[i], b)
  {
    if stream != [] {
      var front := stream[..|stream| - 1];
      BoostingMembersMembership(front, b);
      if b in BoostingMembers(stream) {
        if b !in BoostingMembers(front) {
          assert IsBoostOf(stream[|stream| - 1], b);
        } else {
          var i :| 0 <= i < |front| && IsBoostOf(front[i], b);
          assert stream[i] == front[i];
        }
      }
      if exists i :: 0 <= i < |stream| && IsBoostOf(stream[i], b) {
        var i :| 0 <= i < |stream| && IsBoostOf(stream[i], b);
        if i < |front| {
          assert IsBoostOf(front[i], b);
        }
      }
    }
  }

  lemma DropLastOfAppend<T>(a: seq<T>, b: seq<T>)
    requires b != []
    ensures (a + b)[..|a + b| - 1] == a + b[..|b| - 1]
    ensures (a + b)[|a + b| - 1] == b[|b| - 1]
  {
    assert (a + b)[..|a + b| - 1] == a + b[..|b| - 1];
  }

  /** Reading a stream in two parts collects the two parts' boosters, one after the other. */
  lemma {:induction false} BoostingMembersAppend(a: seq<MemberResult>, b: seq<MemberResult>)
    ensures BoostingMembers(a + b) == BoostingMembers(a) + BoostingMembers(b)
  {
    if b == [] {
      assert a + b == a;
    } else {
      var front, last := b[..|b| - 1], b[|b| - 1];
      BoostingMembersAppend(a, front);
      var c := a + b;
      DropLastOfAppend(a, b);
      calc {
        BoostingMembers(c);
        BoostingMembers(a + front) + Collected(last);
        (BoostingMembers(a) + BoostingMembers(front)) + Collected(last);
        { Text.AppendAssociative(BoostingMembers(a), BoostingMembers(front), Collected(last)); }
        BoostingMembers(a) + (BoostingMembers(front) + Collected(last));
        BoostingMembers(a) + BoostingMembers(b);
      }
    }
  }

  /** "**name#discriminator** - date". */
  function Entry(b: Boosting): (s: string)
    ensures |s| >= 9 && s[..2] == "**"
    ensures "**" + b.member.user.name + "#" <= s
    ensures s[|"**" + b.member.user.name + "#"|..]
         == Text.NatToDecimal(b.member.user.discriminator) + "** - " + b.since
  {
    "**" + b.member.user.name + "#" + Text.NatToDecimal(b.member.user.discriminator) + "** - " + b.since
  }

  /** The fold: the entries one after another, with no separator. */
  function Description(bs: seq<Boosting>): (d: string)
    ensures d == "" <==> bs == []
  {
    if bs == [] then "" else Description(bs[..|bs| - 1]) + Entry(bs[|bs| - 1])
  }

  lemma {:induction false} DescriptionAppend(a: seq<Boosting>, b: seq<Boosting>)
    ensures Description(a + b) == Description(a) + Description(b)
  {
    if b == [] {
      assert a + b == a;
    } else {
      var front, last := b[..|b| - 1], b[|b| - 1];
      DescriptionAppend(a, front);
      var c := a + b;
      DropLastOfAppend(a, b);
      calc {
        Description(c);
        Description(a + front) + Entry(last);
        (Description(a) + Description(front)) + Entry(last);
        { Text.AppendAssociative(Description(a), Description(front), Entry(last)); }
        Description(a) + (Description(front) + Entry(last));
        Description(a) + Description(b);
      }
    }
  }

  /** Each entry sits in the description right after the entries before it. */
  lemma {:induction false} EntryInDescription(bs: seq<Boosting>, i: nat)
    requires i < |bs|
    ensures Description(bs) == Description(bs[..i]) + Entry(bs[i]) + Description(bs[i + 1..])
  {
    var front, tail := bs[..i], bs[i + 1..];
    assert bs == (front + [bs[i]]) + tail;
    DescriptionAppend(front + [bs[i]], tail);
    assert (front + [bs[i]])[..|front|] == front;
    assert Description(front + [bs[i]]) == Description(front) + Entry(bs[i]);
  }

  /** The `while let` loop over the member stream. */
  method CollectBoosting(stream: seq<MemberResult>) returns (boosting: seq<Boosting>)
    ensures boosting == BoostingMembers(stream)
  {
    boosting := [];
    for i := 0 to |stream|
      invariant boosting == BoostingMembers(stream[..i])
    {
      assert stream[..i + 1][..i] == stream[..i];
      if stream[i].Fetched? {
        var member := stream[i].member;
        if member.premiumSince.Some? {
          boosting := boosting + [Boosting(member, member.premiumSince.value)];
        }
      }
    }
    assert stream[..|stream|] == stream;
  }

  /** The fold with `push_str` into the accumulator. */
  method JoinEntries(boosting: seq<Boosting>) returns (acc: string)
    ensures acc == Description(boosting)
  {
    acc := "";
    for i := 0 to |boosting|
      invariant acc == Description(boosting[..i])
    {
      assert boosting[..i + 1][..i] == boosting[..i];
      acc := acc + Entry(boosting[i]);
    }
    assert boosting[..|boosting|] == boosting;
  }

  /** `boosts`: an embed listing the boosters, or an error message when there are none; always `Ok`. */
  method ModerationBoosts(stream: seq<MemberResult>) returns (r: Result<Reply, string>)
    ensures r.Success?
    ensures BoostingMembers(stream) == [] ==> r.value == ErrorReply(NoBoostersError)
    ensures BoostingMembers(stream) != [] ==>
      r.value == EmbedReply(EmbedTitle, Description(BoostingMembers(stream)))
  {
    var boosting := CollectBoosting(stream);
    if boosting != [] {
      var description := JoinEntries(boosting);
      r := Success(EmbedReply(EmbedTitle, description));
    } else {
      r := Success(ErrorReply(NoBoostersError));
    }
  }

  /** `list_boosts`: the same listing, but a plain text message when there are no boosters. */
  method ManageListBoosts(stream: seq<MemberResult>) returns (r: Result<Reply, string>)
    ensures r.Success?
    ensures BoostingMembers(stream) == [] ==> r.value == ContentReply(NoBoostersContent)
    ensures BoostingMembers(stream) != [] ==>
      r.value == EmbedReply(EmbedTitle, Description(BoostingMembers(stream)))
  {
    var boosting := CollectBoosting(stream);
    if boosting != [] {
      var description := JoinEntries(boosting);
      r := Success(EmbedReply(EmbedTitle, description));
    } else {
      r := Success(ContentReply(NoBoostersContent));
    }
  }

  /** With nobody boosting, the listing is empty exactly when no fetched member has a boost date. */
  lemma NoBoostersIff(stream: seq<MemberResult>)
    ensures BoostingMembers(stream) == [] <==>
      forall i :: 0 <= i < |stream| && stream[i].Fetched? ==> stream[i].member.premiumSince.None?
  {
    if BoostingMembers(stream) == [] {
      forall i | 0 <= i < |stream| && stream[i].Fetched?
        ensures stream[i].member.premiumSince.None?
      {
        if stream[i].member.premiumSince.Some? {
          var b := Boosting(stream[i].member, stream[i].member.premiumSince.value);
          assert IsBoostOf(stream[i], b);
          BoostingMembersMembership(stream, b);
        }
      }
    } else {
      var b := BoostingMembers(stream)[0];
      BoostingMembersMembership(stream, b);
      var i :| 0 <= i < |stream| && IsBoostOf(stream[i], b);
      assert stream[i].Fetched? && stream[i].member.premiumSince.Some?;
    }
  }
}
