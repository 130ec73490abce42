/** String helpers of the `/listusers` and `/sendtousers` handlers. */
module TextHelpers {

  /** `maxLength` of the name shortening in `/listusers`. */
  const MaxNameLength := 30
  /** Telegram's message limit, `chunkSize` of the `/listusers` send loop. */
  const ChunkSize := 4096

  /** `s.length > 30 ? s.slice(0, 30) + '...' : s`. */
  function Truncate(s: string): (r: string)
    ensures |s| <= MaxNameLength ==> r == s
    ensures |s| > MaxNameLength ==> |r| == MaxNameLength + 3 && r[..MaxNameLength] == s[..MaxNameLength] && r[MaxNameLength..] == "..."
    ensures |r| <= MaxNameLength + 3
  {
    if |s| > MaxNameLength then s[..MaxNameLength] + "..." else s
  }

  /** The text obtained by sending the chunks one after another. */
  function Concat(chunks: seq<string>): string {
    if chunks == [] then "" else Concat(chunks[..|chunks| - 1]) + chunks[|chunks| - 1]
  }

  /** `for (i = 0; i < s.length; i += size) send(s.substring(i, i + size))`: the chunks are
      non-empty, at most `size` long, all but the last exactly `size` long, and together
      they are the whole text. */
  method ChunkMessage(s: string, size: nat) returns (chunks: seq<string>)
    requires size > 0
    ensures Concat(chunks) == s
    ensures forall k :: 0 <= k < |chunks| ==> 0 < |chunks[k]| <= size
    ensures forall k :: 0 <= k < |chunks| - 1 ==> |chunks[k]| == size
  {
    chunks := [];
    var i := 0;
    while i < |s|
      invariant 0 <= i <= |s|
      invariant Concat(chunks) == s[..i]
      invariant forall k :: 0 <= k < |chunks| ==> 0 < |chunks[k]| <= size
      invariant i < |s| ==> forall k :: 0 <= k < |chunks| ==> |chunks[k]| == size
      invariant forall k :: 0 <= k < |chunks| - 1 ==> |chunks[k]| == size
      decreases |s| - i
    {
      var end := if i + size < |s| then i + size else |s|;
      var chunk := s[i..end];
      assert chunks + [chunk] != [] && (chunks + [chunk])[..|chunks|] == chunks;
      assert s[..i] + chunk == s[..end];
      chunks := chunks + [chunk];
      i := end;
    }
    assert s[..|s|] == s;
  }

  /** `t` occurs in `s` starting at index `i`. */
  predicate OccursAt(s: string, t: string, i: int) {
    0 <= i <= |s| - |t| && s[i..i + |t|] == t
  }

  /** `s.includes(t)`: true exactly when `t` occurs somewhere in `s`. */
  function Contains(s: string, t: string): (r: bool)
    ensures r <==> exists i :: OccursAt(s, t, i)
    decreases |s|
  {
    if |s| < |t| then false
    else if s[..|t|] == t then assert OccursAt(s, t, 0); true
    else
      var r := Contains(s[1..], t);
      assert r ==> exists i :: OccursAt(s, t, i) by {
        if r {
          var i :| OccursAt(s[1..], t, i);
          assert s[1..][i..i + |t|] == s[i + 1..i + 1 + |t|];
          assert OccursAt(s, t, i + 1);
        }
      }
      assert (exists i :: OccursAt(s, t, i)) ==> r by {
        if exists i :: OccursAt(s, t, i) {
          var i :| OccursAt(s, t, i);
          assert i != 0;
          assert s[1..][i - 1..i - 1 + |t|] == s[i..i + |t|];
          assert OccursAt(s[1..], t, i - 1);
        }
      }
      r
  }
}
