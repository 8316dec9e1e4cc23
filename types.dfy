/** The records every part of the chat shares, and the two array searches
    (`find` and `filter`) the application applies to its roster. */
module Types {

  datatype Option<T> = None | Some(value: T)

  /** A member of the group chat: the one human (`isUser`) or a bot persona. */
  datatype Participant = Participant(
    id: string,
    name: string,
    avatar: string,
    isUser: bool,
    systemInstruction: Option<string>,  // only meaningful for bots
    color: string)

  /** One entry of the conversation log. */
  datatype Message = Message(
    id: string,
    senderId: string,
    content: string,
    timestamp: int,
    isError: Option<bool>)

  /** The index `Array.prototype.find` stops at: the first element that
      matches, or `|s|` when none does. */
  function FirstIndex<T>(s: seq<T>, matches: T -> bool): (r: nat)
    ensures r <= |s|
    ensures forall j :: 0 <= j < r ==> !matches(s[j])
    ensures r < |s| ==> matches(s[r])
  {
    if s == [] then 0
    else if matches(s[0]) then 0
    else 1 + FirstIndex(s[1..], matches)
  }

  /** `Array.prototype.filter`. */
  function Filter<T(!new)>(s: seq<T>, keep: T -> bool): (r: seq<T>)
    ensures |r| <= |s|
    ensures forall x :: x in r <==> x in s && keep(x)
  {
    if s == [] then []
    else if keep(s[0]) then [s[0]] + Filter(s[1..], keep)
    else Filter(s[1..], keep)
  }

  /** Filtering keeps the relative order: it distributes over concatenation. */
  lemma {:induction false} FilterAppend<T(!new)>(a: seq<T>, b: seq<T>, keep: T -> bool)
    ensures Filter(a + b, keep) == Filter(a, keep) + Filter(b, keep)
  {
    if a == [] {
      assert a + b == b;
    } else {
      assert (a + b)[0] == a[0];
      assert (a + b)[1..] == a[1..] + b;
      FilterAppend(a[1..], b, keep);
    }
  }

  /** Filtering the elements that all pass changes nothing. */
  lemma {:induction false} FilterAllKept<T(!new)>(s: seq<T>, keep: T -> bool)
    requires forall i :: 0 <= i < |s| ==> keep(s[i])
    ensures Filter(s, keep) == s
  {
    if s != [] {
      FilterAllKept(s[1..], keep);
    }
  }
}
