/** `explode_line` of ingest.py: the `[k=v, k="v", ...]` field parser. */
module LineFormat {
  import opened Wrappers
  import opened Text

  /** The exceptions `explode_line` can raise, one per failing Python step. */
  datatype ExplodeError =
    | NoOpenBracket             // line.index("[") raises ValueError
    | NoCloseBracket            // line.index("]") raises ValueError
    | MissingEquals(seg: string) // kv[1] raises IndexError
    | EmptyValue(key: string)   // v[0] raises IndexError

  const Quote: char := '"'
  const FieldSeparator: string := ", "

  /** Strips one pair of surrounding double quotes, if the value has them. */
  function Unquote(v: string): (r: string)
    requires |v| > 0
    ensures v[0] == Quote && v[|v| - 1] == Quote && |v| >= 2 ==> [Quote] + r + [Quote] == v
    ensures v == [Quote] ==> r == ""
    ensures !(v[0] == Quote && v[|v| - 1] == Quote) ==> r == v
  {
    if v[0] == Quote && v[|v| - 1] == Quote then
      (if |v| >= 2 then v[1..|v| - 1] else "")
    else v
  }

  /** Quoting a string and unquoting it gives the string back. */
  lemma UnquoteQuoted(s: string)
    ensures Unquote([Quote] + s + [Quote]) == s
  {
    var v := [Quote] + s + [Quote];
    assert v[1..|v| - 1] == s;
  }

  /** `seg.split("=")`, then `kv[0]` and `kv[1]`: the key is the text before the
      first `=`, the raw value the text after it up to the next `=` (or the end). */
  function KeyAndRaw(seg: string): (r: Option<(string, string)>)
    ensures r.None? <==> '=' !in seg
    ensures r.Some? ==>
      var (k, raw) := r.value;
      '=' !in k && |k| < |seg| && seg[..|k|] == k && seg[|k|] == '=' &&
      var rest := seg[|k| + 1..];
      '=' !in raw && |raw| <= |rest| && rest[..|raw|] == raw && (|raw| == |rest| || rest[|raw|] == '=')
  {
    var kv := Split(seg, "=");
    KeyAndRawParts(seg);
    if |kv| < 2 then None else Some((kv[0], kv[1]))
  }

  /** What the first two pieces of `seg.split("=")` are, in terms of the positions of `=`. */
  lemma KeyAndRawParts(seg: string)
    ensures var kv := Split(seg, "=");
      (|kv| < 2 <==> '=' !in seg) &&
      (|kv| >= 2 ==>
        '=' !in kv[0] && |kv[0]| < |seg| && seg[..|kv[0]|] == kv[0] && seg[|kv[0]|] == '=' &&
        var rest := seg[|kv[0]| + 1..];
        '=' !in kv[1] && |kv[1]| <= |rest| && rest[..|kv[1]|] == kv[1] && (|kv[1]| == |rest| || rest[|kv[1]|] == '='))
  {
    var kv := Split(seg, "=");
    FirstPiece(seg, '=');
    if '=' in seg {
      var rest := seg[|kv[0]| + 1..];
      FirstPiece(rest, '=');
      var tail := Split(rest, "=");
      assert kv[1..] == tail;
      assert kv[1] == tail[0] by {
        assert kv[1] == kv[1..][0];
      }
    }
  }

  /** The first piece of `s.split(c)` runs up to the first `c` (or to the end),
      and the other pieces are the split of what follows that `c`. */
  lemma FirstPiece(s: string, c: char)
    ensures var parts := Split(s, [c]);
      var p := parts[0];
      c !in p && |p| <= |s| && s[..|p|] == p && (|p| == |s| || s[|p|] == c) &&
      (|parts| >= 2 <==> c in s) &&
      (c in s ==> parts[1..] == Split(s[|p| + 1..], [c]))
  {
    var f := IndexOf(s, c);
    assert f == Find(s, [c]);
    if f.None? {
      assert Split(s, [c]) == [s];
    } else {
      var i := f.value;
      assert Split(s, [c]) == [s[..i]] + Split(s[i + 1..], [c]);
    }
  }

  /** One `k=v` segment: the key and the unquoted value, or the error Python raises. */
  function Entry(seg: string): (r: Result<(string, string), ExplodeError>)
    ensures r.Err? <==> '=' !in seg || KeyAndRaw(seg).value.1 == ""
    ensures '=' !in seg ==> r == Err(MissingEquals(seg))
    ensures '=' in seg && KeyAndRaw(seg).value.1 == "" ==> r == Err(EmptyValue(KeyAndRaw(seg).value.0))
    ensures r.Ok? ==> r.value == (KeyAndRaw(seg).value.0, Unquote(KeyAndRaw(seg).value.1))
  {
    match KeyAndRaw(seg)
    case None => Err(MissingEquals(seg))
    case Some((k, raw)) =>
      if raw == "" then Err(EmptyValue(k)) else Ok((k, Unquote(raw)))
  }

  /** The dictionary loop: each segment in turn overwrites its key. */
  function Fill(segs: seq<string>, acc: map<string, string>): (r: Result<map<string, string>, ExplodeError>)
    ensures r.Ok? ==> acc.Keys <= r.value.Keys
    ensures r.Ok? ==> forall i :: 0 <= i < |segs| ==> Entry(segs[i]).Ok? && Entry(segs[i]).value.0 in r.value
  {
    if segs == [] then Ok(acc)
    else
      match Entry(segs[0])
      case Err(e) => Err(e)
      case Ok((k, v)) => Fill(segs[1..], acc[k := v])
  }

  /** The text between the first `[` and the first `]` (empty when the `]` comes first). */
  function Inner(line: string): (r: Result<string, ExplodeError>)
    ensures r == Err(NoOpenBracket) <==> '[' !in line
    ensures r == Err(NoCloseBracket) <==> '[' in line && ']' !in line
  {
    match IndexOf(line, '[')
    case None => Err(NoOpenBracket)
    case Some(a) =>
      match IndexOf(line, ']')
      case None => Err(NoCloseBracket)
      case Some(b) => Ok(if b < a + 1 then "" else line[a + 1..b])
  }

  /** The specification of `explode_line`. */
  function Explode(line: string): (r: Result<map<string, string>, ExplodeError>)
    ensures '[' !in line ==> r == Err(NoOpenBracket)
    ensures '[' in line && ']' !in line ==> r == Err(NoCloseBracket)
    ensures r.Ok? ==> forall seg :: seg in Split(Inner(line).value, FieldSeparator) ==> Entry(seg).Ok?
  {
    var inner :- Inner(line);
    Fill(Split(inner, FieldSeparator), map[])
  }

  /** `explode_line`: fills the dictionary in a loop over the segments. */
  method ExplodeLine(line: string) returns (r: Result<map<string, string>, ExplodeError>)
    ensures r == Explode(line)
  {
    var inner := Inner(line);
    if inner.Err? {
      return Err(inner.error);
    }
    var segs := Split(inner.value, FieldSeparator);
    var res: map<string, string> := map[];
    var i := 0;
    while i < |segs|
      invariant 0 <= i <= |segs|
      invariant Fill(segs, map[]) == Fill(segs[i..], res)
    {
      assert segs[i..][1..] == segs[i + 1..];
      var e := Entry(segs[i]);
      if e.Err? {
        return Err(e.error);
      }
      res := res[e.value.0 := e.value.1];
      i := i + 1;
    }
    assert segs[i..] == [];
    r := Ok(res);
  }

  /** A character found at `i` with none before it is the first one. */
  lemma IndexOfAt(s: string, c: char, i: nat)
    requires i < |s| && s[i] == c && c !in s[..i]
    ensures IndexOf(s, c) == Some(i)
  {
    assert s[..i + 1][i] == c;
  }

  /** Only the text between the first `[` and the first `]` is read: whatever
      precedes the `[` (bracket-free) and whatever follows the `]` is ignored. */
  lemma ExplodeReadsBracketOnly(pre: string, body: string, post: string)
    requires '[' !in pre && ']' !in pre && ']' !in body
    ensures Explode(pre + "[" + body + "]" + post) == Fill(Split(body, FieldSeparator), map[])
  {
    InnerOfBracketed(pre, body, post);
  }

  lemma InnerOfBracketed(pre: string, body: string, post: string)
    requires '[' !in pre && ']' !in pre && ']' !in body
    ensures Inner(pre + "[" + body + "]" + post) == Ok(body)
  {
    OpenBracketAt(pre, body, post);
    CloseBracketAt(pre, body, post);
    BodyBetween(pre, body, post);
  }

  lemma BodyBetween(pre: string, body: string, post: string)
    ensures (pre + "[" + body + "]" + post)[|pre| + 1..|pre| + 1 + |body|] == body
  {
  }

  lemma OpenBracketAt(pre: string, body: string, post: string)
    requires '[' !in pre
    ensures IndexOf(pre + "[" + body + "]" + post, '[') == Some(|pre|)
  {
    var line := pre + "[" + body + "]" + post;
    assert line[..|pre|] == pre;
    IndexOfAt(line, '[', |pre|);
  }

  lemma CloseBracketAt(pre: string, body: string, post: string)
    requires ']' !in pre && ']' !in body
    ensures IndexOf(pre + "[" + body + "]" + post, ']') == Some(|pre| + 1 + |body|)
  {
    var line := pre + "[" + body + "]" + post;
    var b := |pre| + 1 + |body|;
    assert line[..b] == pre + "[" + body;
    IndexOfAt(line, ']', b);
  }

  /** The value the last segment with key `k` gives it, scanning from the right. */
  function LastValue(segs: seq<string>, k: string): Option<string>
  {
    if segs == [] then None
    else
      match Entry(segs[|segs| - 1])
      case Ok((k', v)) =>
        if k' == k then Some(v) else LastValue(segs[..|segs| - 1], k)
      case Err(_) => LastValue(segs[..|segs| - 1], k)
  }

  /** Filling with one more segment is one more step after the rest. */
  lemma {:induction false} FillSnoc(segs: seq<string>, seg: string, acc: map<string, string>)
    ensures Fill(segs + [seg], acc) ==
      match Fill(segs, acc)
      case Err(e) => Err(e)
      case Ok(m) =>
        match Entry(seg)
        case Err(e) => Err(e)
        case Ok((k, v)) => Ok(m[k := v])
  {
    if segs == [] {
      assert [seg][1..] == [];
    } else {
      assert (segs + [seg])[1..] == segs[1..] + [seg];
      match Entry(segs[0])
      case Err(e) =>
      case Ok((k, v)) => FillSnoc(segs[1..], seg, acc[k := v]);
    }
  }

  /** A later repeat of a key overwrites an earlier one: the dictionary holds,
      for each key, the value of its last segment (or the starting value). */
  lemma {:induction false} FillLastWins(segs: seq<string>, acc: map<string, string>, k: string)
    requires Fill(segs, acc).Ok?
    ensures var m := Fill(segs, acc).value;
      (k in m <==> LastValue(segs, k).Some? || k in acc) &&
      (k in m ==> m[k] == if LastValue(segs, k).Some? then LastValue(segs, k).value else acc[k])
    decreases |segs|
  {
    if segs != [] {
      var init := segs[..|segs| - 1];
      var seg := segs[|segs| - 1];
      assert segs == init + [seg];
      FillSnoc(init, seg, acc);
      if Fill(init, acc).Err? {
        assert false;
      }
      FillLastWins(init, acc, k);
    }
  }

  /** The line fails exactly when some segment fails. */
  lemma {:induction false} FillFailsIff(segs: seq<string>, acc: map<string, string>)
    ensures Fill(segs, acc).Err? <==> exists i :: 0 <= i < |segs| && Entry(segs[i]).Err?
    decreases |segs|
  {
    if segs != [] {
      match Entry(segs[0])
      case Err(e) =>
      case Ok((k, v)) =>
        FillFailsIff(segs[1..], acc[k := v]);
        forall i | 1 <= i < |segs| ensures segs[1..][i - 1] == segs[i] { }
        if exists i :: 0 <= i < |segs| && Entry(segs[i]).Err? {
          var i :| 0 <= i < |segs| && Entry(segs[i]).Err?;
          assert Entry(segs[1..][i - 1]).Err?;
        }
    }
  }
}
