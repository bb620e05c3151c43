/** Conversation turns, roles, and the string joining used to build the context. */
module Chat {

  datatype Option<+T> = None | Some(value: T) {
    /** The wrapped value, or `default` when there is none. */
    function GetOr(default: T): T {
      if Some? then value else default
    }
  }

  /** One chat message: a role and its text, as the chat service receives it. */
  datatype Turn = Turn(role: string, content: string)

  const RoleSystem: string := "system"
  const RoleUser: string := "user"
  const RoleAssistant: string := "assistant"

  /** `sep.join(parts)`: the parts in order, with `sep` between neighbours. */
  function Join(sep: string, parts: seq<string>): (joined: string)
    ensures |parts| == 0 ==> joined == ""
    ensures |parts| > 0 ==> |parts[0]| <= |joined| && joined[..|parts[0]|] == parts[0]
  {
    if |parts| == 0 then ""
    else if |parts| == 1 then parts[0]
    else parts[0] + sep + Join(sep, parts[1..])
  }

  /** The sum of the lengths of the parts. */
  function TotalLength(parts: seq<string>): nat
  {
    if |parts| == 0 then 0 else |parts[0]| + TotalLength(parts[1..])
  }

  /** Where `parts[i]` begins inside `Join(sep, parts)`. */
  function Offset(sep: string, parts: seq<string>, i: nat): nat
    requires i <= |parts|
  {
    TotalLength(parts[..i]) + i * |sep|
  }

  /** The joined string is exactly the parts plus one separator between each neighbouring pair. */
  lemma {:induction false} JoinLength(sep: string, parts: seq<string>)
    ensures |Join(sep, parts)| == TotalLength(parts) + (if |parts| == 0 then 0 else (|parts| - 1) * |sep|)
  {
    if |parts| > 1 {
      JoinLength(sep, parts[1..]);
    }
  }

  /** Every part appears verbatim in the joined string, at its offset. */
  lemma {:induction false} JoinHoldsPart(sep: string, parts: seq<string>, i: nat)
    requires i < |parts|
    ensures Offset(sep, parts, i) + |parts[i]| <= |Join(sep, parts)|
    ensures Join(sep, parts)[Offset(sep, parts, i)..Offset(sep, parts, i) + |parts[i]|] == parts[i]
  {
    var joined := Join(sep, parts);
    if i == 0 {
      assert parts[..0] == [];
      assert Offset(sep, parts, 0) == 0;
      if |parts| > 1 {
        assert joined == parts[0] + (sep + Join(sep, parts[1..]));
      }
    } else {
      var rest := parts[1..];
      JoinHoldsPart(sep, rest, i - 1);
      assert parts[..i][1..] == rest[..i - 1];
      assert TotalLength(parts[..i]) == |parts[0]| + TotalLength(rest[..i - 1]);
      var head := parts[0] + sep;
      assert Offset(sep, parts, i) == |head| + Offset(sep, rest, i - 1);
      assert joined == head + Join(sep, rest);
      var o := Offset(sep, rest, i - 1);
      assert joined[|head| + o..|head| + o + |rest[i - 1]|] == Join(sep, rest)[o..o + |rest[i - 1]|];
    }
  }

  /** Moving past the first part shifts every later offset by that part and one separator. */
  lemma OffsetAfterFirst(sep: string, parts: seq<string>, i: nat)
    requires 0 < i <= |parts|
    ensures Offset(sep, parts, i) == |parts[0]| + |sep| + Offset(sep, parts[1..], i - 1)
  {
    assert parts[..i][1..] == parts[1..][..i - 1];
  }

  /** Between each part and the next, the joined string holds exactly the separator. */
  lemma {:induction false} JoinSeparatorBetween(sep: string, parts: seq<string>, i: nat)
    requires i + 1 < |parts|
    ensures Offset(sep, parts, i) + |parts[i]| <= Offset(sep, parts, i + 1) <= |Join(sep, parts)|
    ensures Join(sep, parts)[Offset(sep, parts, i) + |parts[i]|..Offset(sep, parts, i + 1)] == sep
  {
    var joined := Join(sep, parts);
    var rest := parts[1..];
    var head := parts[0] + sep;
    assert joined == head + Join(sep, rest);
    OffsetAfterFirst(sep, parts, i + 1);
    if i == 0 {
      assert parts[..0] == [];
      assert Offset(sep, parts, 0) == 0;
      assert rest[..0] == [];
      assert joined[|parts[0]|..|head|] == sep;
    } else {
      JoinSeparatorBetween(sep, rest, i - 1);
      OffsetAfterFirst(sep, parts, i);
      var lo := Offset(sep, rest, i - 1) + |rest[i - 1]|;
      var hi := Offset(sep, rest, i);
      assert joined[|head| + lo..|head| + hi] == Join(sep, rest)[lo..hi];
    }
  }
}
