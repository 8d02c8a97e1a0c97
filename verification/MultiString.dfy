/** The builders of C strings and of the double-NUL list of strings. */
module MultiString {

  const NUL: char := '\0'

  datatype Option<T> = None | Some(value: T)

  /** The strings that reach the buffer. */
  function NonEmpty(vs: seq<string>): seq<string> {
    if vs == [] then [] else (if vs[0] == "" then [] else [vs[0]]) + NonEmpty(vs[1..])
  }

  function Joined(vs: seq<string>): string {
    if vs == [] then "" else (if vs[0] == "" then "" else vs[0] + [NUL]) + Joined(vs[1..])
  }

  /** The buffer for a list; an empty list gives a null pointer. */
  function Encode(vs: seq<string>): Option<string> { if vs == [] then None else Some(Joined(vs) + [NUL]) }

  /** What a C reader sees from a pointer to these characters on. */
  function CString(buf: string): string { if buf == "" || buf[0] == NUL then "" else [buf[0]] + CString(buf[1..]) }

  lemma {:induction false} CStringLength(buf: string)
    ensures |CString(buf)| <= |buf| && NUL !in CString(buf)
  {
    if buf != "" && buf[0] != NUL { CStringLength(buf[1..]); }
  }

  /** Reads strings one after another up to the empty one. */
  function Decode(buf: string): seq<string>
    decreases |buf|
  {
    var s := CString(buf);
    CStringLength(buf);
    if s == "" then [] else [s] + (if |s| < |buf| then Decode(buf[|s| + 1..]) else [])
  }

  predicate NulFree(s: string) { NUL !in s }

  predicate AllNulFree(vs: seq<string>) { forall i :: 0 <= i < |vs| ==> NulFree(vs[i]) }

  lemma {:induction false} CStringOf(s: string, rest: string)
    ensures NulFree(s) ==> CString(s + [NUL] + rest) == s
    ensures CString(s) == s <==> NulFree(s)
  {
    if s != "" {
      assert (s + [NUL] + rest)[1..] == s[1..] + [NUL] + rest;
      assert (s + [NUL] + rest)[0] == s[0];
      CStringOf(s[1..], rest);
      assert NulFree(s) <==> s[0] != NUL && NulFree(s[1..]);
      CStringLength(s);
    }
  }

  lemma {:induction false} DecodeJoined(vs: seq<string>)
    requires AllNulFree(vs)
    ensures Decode(Joined(vs) + [NUL]) == NonEmpty(vs)
  {
    if vs != [] {
      DecodeJoined(vs[1..]);
      if vs[0] != "" {
        var rest := Joined(vs[1..]) + [NUL];
        assert Joined(vs) + [NUL] == vs[0] + [NUL] + rest;
        CStringOf(vs[0], rest);
        assert (vs[0] + [NUL] + rest)[|vs[0]| + 1..] == rest;
      } else {
        assert Joined(vs) == Joined(vs[1..]);
      }
    }
  }

  lemma {:induction false} DecodedIsNulFree(buf: string)
    ensures AllNulFree(Decode(buf)) && "" !in Decode(buf)
    decreases |buf|
  {
    var s := CString(buf);
    CStringLength(buf);
    if s != "" && |s| < |buf| { DecodedIsNulFree(buf[|s| + 1..]); }
  }

  lemma {:induction false} NonEmptyMembers(vs: seq<string>, s: string)
    ensures s in NonEmpty(vs) <==> s in vs && s != ""
  {
    if vs != [] { NonEmptyMembers(vs[1..], s); }
  }

  /** What reaches the buffer, string by string and in order. */
  lemma {:induction false} NonEmptyJoin(vs: seq<string>, ws: seq<string>)
    ensures NonEmpty(vs + ws) == NonEmpty(vs) + NonEmpty(ws)
  {
    if vs == [] {
      assert vs + ws == ws;
    } else {
      assert (vs + ws)[1..] == vs[1..] + ws;
      NonEmptyJoin(vs[1..], ws);
    }
  }

  lemma NonEmptyOne(s: string)
    ensures NonEmpty([s]) == if s == "" then [] else [s]
  {
    assert [s][1..] == [];
  }

  function Chars(vs: seq<string>): nat { if vs == [] then 0 else |vs[0]| + 1 + Chars(vs[1..]) }

  /** The buffer is null for the empty list; else it holds the strings that reach it, a NUL after each, and one more. */
  lemma BufferIs(vs: seq<string>)
    ensures Encode(vs).None? <==> vs == []
    ensures vs != [] ==>
      var buf := Encode(vs).value;
      |buf| == Chars(NonEmpty(vs)) + 1 && buf[|buf| - 1] == NUL && (NonEmpty(vs) == [] ==> buf == [NUL])
  {
    JoinedLength(vs);
  }

  lemma {:induction false} JoinedLength(vs: seq<string>)
    ensures |Joined(vs)| == Chars(NonEmpty(vs))
  {
    if vs != [] {
      JoinedLength(vs[1..]);
      if vs[0] != "" {
        assert NonEmpty(vs)[0] == vs[0] && NonEmpty(vs)[1..] == NonEmpty(vs[1..]);
      } else {
        assert NonEmpty(vs) == NonEmpty(vs[1..]);
      }
    }
  }

  /** Splitting the buffer gives back the non-empty strings in order exactly when none of them contains a NUL. */
  lemma RoundTripIff(vs: seq<string>)
    requires vs != []
    ensures Decode(Encode(vs).value) == NonEmpty(vs) <==> AllNulFree(vs)
  {
    if AllNulFree(vs) {
      DecodeJoined(vs);
    } else {
      var i :| 0 <= i < |vs| && !NulFree(vs[i]);
      NonEmptyMembers(vs, vs[i]);
      DecodedIsNulFree(Encode(vs).value);
      assert vs[i] !in Decode(Encode(vs).value);
    }
  }

  lemma {:induction false} JoinedNonEmpty(vs: seq<string>)
    ensures Joined(NonEmpty(vs)) == Joined(vs)
  {
    if vs != [] {
      JoinedNonEmpty(vs[1..]);
      if vs[0] != "" {
        assert NonEmpty(vs)[0] == vs[0] && NonEmpty(vs)[1..] == NonEmpty(vs[1..]);
      } else {
        assert NonEmpty(vs) == NonEmpty(vs[1..]);
      }
    }
  }

  /** Two lists of NUL-free strings share a buffer exactly when they agree once their empty strings are dropped. */
  lemma SameBufferIff(vs: seq<string>, ws: seq<string>)
    requires vs != [] && ws != [] && AllNulFree(vs) && AllNulFree(ws)
    ensures Encode(vs) == Encode(ws) <==> NonEmpty(vs) == NonEmpty(ws)
  {
    DecodeJoined(vs);
    DecodeJoined(ws);
    JoinedNonEmpty(vs);
    JoinedNonEmpty(ws);
  }

  // ---- in place

  lemma {:induction false} JoinedPush(vs: seq<string>, s: string)
    ensures Joined(vs + [s]) == Joined(vs) + (if s == "" then "" else s + [NUL])
  {
    if vs != [] {
      assert (vs + [s])[1..] == vs[1..] + [s];
      JoinedPush(vs[1..], s);
    } else {
      assert vs + [s] == [s] && [s][1..] == [];
    }
  }

  /** create(vector of strings): skips the empty ones, copies the others with their NUL, and closes with another. */
  method Create(vs: seq<string>) returns (r: Option<string>)
    ensures r == Encode(vs) && (r.None? <==> vs == [])
    ensures r.Some? && AllNulFree(vs) ==> Decode(r.value) == NonEmpty(vs)
  {
    if vs == [] {
      return None;
    }
    var buf := "";
    for i := 0 to |vs|
      invariant buf == Joined(vs[..i])
    {
      assert vs[..i + 1] == vs[..i] + [vs[i]];
      JoinedPush(vs[..i], vs[i]);
      if vs[i] == "" {
        continue;
      }
      ghost var before := buf;
      for j := 0 to |vs[i]|
        invariant buf == before + vs[i][..j]
      {
        assert vs[i][..j + 1] == vs[i][..j] + [vs[i][j]];
        buf := buf + [vs[i][j]];
      }
      assert vs[i][..|vs[i]|] == vs[i];
      assert before + vs[i] + [NUL] == before + (vs[i] + [NUL]);
      buf := buf + [NUL];
    }
    assert vs[..|vs|] == vs;
    buf := buf + [NUL];
    RoundTripIff(vs);
    r := Some(buf);
  }

  /** Cut at its first NUL, a string reads as before. */
  lemma CStringCut(s: string, i: nat, rest: string)
    requires i <= |s| && NulFree(s[..i]) && (i < |s| ==> s[i] == NUL)
    ensures CString(s[..i] + [NUL] + rest) == CString(s) == s[..i]
  {
    CStringOf(s[..i], rest);
    if i < |s| {
      CStringOf(s[..i], s[i + 1..]);
      assert s == s[..i] + [NUL] + s[i + 1..];
    } else {
      CStringOf(s, "");
      assert s[..i] == s;
    }
  }

  /** One more character copied over. */
  lemma CopyOne(s: string, room: string, i: nat)
    requires i < |s| < |room|
    ensures (s[..i] + room[i..])[i := s[i]] == s[..i + 1] + room[i + 1..]
    ensures NulFree(s[..i]) && s[i] != NUL ==> NulFree(s[..i + 1])
  {
    assert s[..i + 1] == s[..i] + [s[i]];
  }

  /** create(string): size + 1 characters, of which strcpy fills those up to the first NUL. */
  method CreateOne(s: string, room: string) returns (buf: string)
    requires |room| == |s| + 1 && forall i :: 0 <= i < |room| ==> room[i] == NUL
    ensures |buf| == |s| + 1 && CString(buf) == CString(s) && forall i :: |CString(s)| <= i < |buf| ==> buf[i] == NUL
    ensures CString(buf) == s <==> NulFree(s)
  {
    buf := room;
    var i := 0;
    while i < |s| && s[i] != NUL
      invariant 0 <= i <= |s| && |buf| == |s| + 1
      invariant buf == s[..i] + room[i..]
      invariant NulFree(s[..i])
    {
      CopyOne(s, room, i);
      buf := buf[i := s[i]];
      i := i + 1;
    }
    CStringCut(s, i, room[i..][1..]);
    assert buf == s[..i] + [NUL] + room[i..][1..];
    CStringOf(s, "");
    assert forall j :: i <= j < |buf| ==> buf[j] == room[j];
  }
}
