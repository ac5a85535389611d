/** The participant list (`ListRowUserSimpleComponent`): the first
    `maxUserShown` users, a line counting the ones left out, and a notice
    when there is nobody at all. */
module UserList {
  import opened Common
  import opened Decimal

  const NoParticipants: string := "No participants yet"

  /** `users.take(maxUserShown)`: the first `maxUserShown` users (all of them
      when there are fewer), in order. Kotlin's `take` throws on a negative
      count, hence the precondition. */
  function DisplayedUsers<T>(users: seq<T>, maxUserShown: int): (shown: seq<T>)
    requires maxUserShown >= 0
    ensures shown <= users
    ensures |shown| == if maxUserShown < |users| then maxUserShown else |users|
  {
    if maxUserShown < |users| then users[..maxUserShown] else users
  }

  /** `users.size - displayedUsers.size` */
  function RemainingUsersCount<T>(users: seq<T>, maxUserShown: int): (remaining: int)
    requires maxUserShown >= 0
    ensures remaining >= 0
    ensures |DisplayedUsers(users, maxUserShown)| + remaining == |users|
    ensures remaining > 0 <==> |users| > maxUserShown
  {
    |users| - |DisplayedUsers(users, maxUserShown)|
  }

  /** The line under the list: none when nobody is left out, the singular
      wording for one, and the count in decimal for more. */
  function OverflowText(remaining: int): (text: Option<string>)
    ensures text.Some? <==> remaining > 0
    ensures remaining == 1 ==> text == Some("and 1 other...")
    ensures remaining > 1 ==> text == Some("and " + IntToDecimal(remaining) + " others...")
  {
    if remaining <= 0 then None
    else if remaining == 1 then Some("and 1 other...")
    else Some("and " + IntToDecimal(remaining) + " others...")
  }

  /** The notice shown for an empty list. */
  function EmptyText<T>(users: seq<T>): (text: Option<string>)
    ensures text.Some? <==> users == []
    ensures text.Some? ==> text.value == NoParticipants
  {
    if |users| == 0 then Some(NoParticipants) else None
  }

  /** Every user is either shown or counted in the overflow line, never both,
      and the shown ones are the list's head in order. */
  lemma ShownAndRemainingPartition<T>(users: seq<T>, maxUserShown: int)
    requires maxUserShown >= 0
    ensures users == DisplayedUsers(users, maxUserShown)
                     + users[|users| - RemainingUsersCount(users, maxUserShown)..]
  {
  }

  /** The notice and the overflow line never appear together. */
  lemma EmptyAndOverflowExclusive<T>(users: seq<T>, maxUserShown: int)
    requires maxUserShown >= 0
    ensures EmptyText(users).Some? ==> OverflowText(RemainingUsersCount(users, maxUserShown)).None?
    ensures OverflowText(RemainingUsersCount(users, maxUserShown)).Some? ==> EmptyText(users).None?
  {
  }

  /** Different counts give different overflow lines: the line states how
      many users are left out. */
  lemma {:induction false} OverflowTextInjective(m: int, n: int)
    requires m > 0 && n > 0
    requires OverflowText(m) == OverflowText(n)
    ensures m == n
  {
    if m > 1 && n > 1 {
      var a := IntToDecimal(m);
      var b := IntToDecimal(n);
      var tm := "and " + a + " others...";
      var tn := "and " + b + " others...";
      assert |a| == |b| by {
        assert |tm| == |tn|;
      }
      assert a == tm[4..4 + |a|];
      assert b == tn[4..4 + |b|];
      NatToDigitsInjective(m, n);
    } else if m > 1 {
      OverflowTextLongForm(m);
    } else if n > 1 {
      OverflowTextLongForm(n);
    }
  }

  /** The plural line never reads like the singular one. */
  lemma OverflowTextLongForm(n: int)
    requires n > 1
    ensures OverflowText(n) != OverflowText(1)
  {
    var t := "and " + IntToDecimal(n) + " others...";
    assert |t| >= 15;
    assert |"and 1 other..."| == 14;
  }
}
