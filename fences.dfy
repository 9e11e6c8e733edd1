/** Removal of markdown code fences from a language model's reply, as all three
    serverless endpoints do before parsing it as JSON:
    `content.replace(/```json\n?/g, '').replace(/```\n?/g, '').trim()`. */
module Fences {
  import opened Text

  const JsonFence: string := "```json"
  const Fence: string := "```"

  /** `s.replace(/<fence>\n?/g, '')` for a literal `fence`: scanning from the left,
      every occurrence of `fence` is removed together with one newline directly
      after it, if there is one; text between occurrences is kept. */
  function RemoveFence(s: string, fence: string): string
    requires fence != []
    decreases |s|
  {
    if StartsWith(s, fence) then
      var rest := s[|fence|..];
      if rest != [] && rest[0] == '\n' then RemoveFence(rest[1..], fence) else RemoveFence(rest, fence)
    else if s == [] then []
    else [s[0]] + RemoveFence(s[1..], fence)
  }

  /** The cleaned content handed to `JSON.parse`: no run of three backticks is
      left anywhere in it. */
  function StripFences(content: string): (r: string)
    ensures !Occurs(r, Fence)
  {
    var cleaned := RemoveFence(RemoveFence(content, JsonFence), Fence);
    RemoveFenceLeavesNoFence(RemoveFence(content, JsonFence));
    TrimIsMiddle(cleaned);
    AbsentFromSlice(cleaned, Trim(cleaned), |cleaned| - |TrimStart(cleaned)|, Fence);
    Trim(cleaned)
  }

  /** Text kept before a fence's first character is copied through unchanged. */
  lemma {:induction false} RemoveFenceKeepsPrefix(x: string, y: string, fence: string)
    requires fence != [] && fence[0] !in x
    ensures RemoveFence(x + y, fence) == x + RemoveFence(y, fence)
  {
    if x != [] {
      var u := x + y;
      assert !StartsWith(u, fence) by { assert u[0] == x[0]; }
      assert u[1..] == x[1..] + y;
      RemoveFenceKeepsPrefix(x[1..], y, fence);
    } else {
      assert x + y == y;
    }
  }

  /** Text without the fence's first character is left alone. */
  lemma RemoveFenceNoop(s: string, fence: string)
    requires fence != [] && fence[0] !in s
    ensures RemoveFence(s, fence) == s
  {
    RemoveFenceKeepsPrefix(s, [], fence);
    assert s + [] == s;
  }

  /** Content with no backtick at all is only trimmed. */
  lemma NoBackticksOnlyTrimmed(content: string)
    requires '`' !in content
    ensures StripFences(content) == Trim(content)
  {
    RemoveFenceNoop(content, JsonFence);
    RemoveFenceNoop(content, Fence);
  }

  /** Three backticks at `i`, character by character. */
  lemma FenceAt(r: string, i: int)
    requires 0 <= i
    ensures OccursAt(r, Fence, i) <==> i + 3 <= |r| && r[i] == '`' && r[i + 1] == '`' && r[i + 2] == '`'
  {
    if i + 3 <= |r| {
      var w := r[i..i + 3];
      assert |w| == 3 && w[0] == r[i] && w[1] == r[i + 1] && w[2] == r[i + 2];
      if r[i] == '`' && r[i + 1] == '`' && r[i + 2] == '`' {
        assert w == Fence;
      }
    }
  }

  /** A text starts with the fence exactly when its first three characters are backticks. */
  lemma StartsWithFence(s: string)
    ensures StartsWith(s, Fence) <==> |s| >= 3 && s[0] == '`' && s[1] == '`' && s[2] == '`'
  {
    FenceAt(s, 0);
    assert StartsWith(s, Fence) <==> OccursAt(s, Fence, 0) by {
      if |s| >= 3 {
        assert s[..3] == s[0..3];
      }
    }
  }

  /** A character that does not begin the fence heads the cleaned text of any text it heads. */
  lemma RemoveFenceHead(s: string)
    requires s != [] && !StartsWith(s, Fence)
    ensures RemoveFence(s, Fence) == [s[0]] + RemoveFence(s[1..], Fence)
  {
  }

  /** The cleaned text cannot begin with a run of three backticks. */
  lemma NoFenceAtHead(s: string)
    requires s != [] && !StartsWith(s, Fence)
    ensures !OccursAt(RemoveFence(s, Fence), Fence, 0)
  {
    var r := RemoveFence(s, Fence);
    var tail := RemoveFence(s[1..], Fence);
    RemoveFenceHead(s);
    assert r[0] == s[0];
    FenceAt(r, 0);
    StartsWithFence(s);
    if s[0] == '`' && |s| >= 2 {
      StartsWithFence(s[1..]);
      assert !StartsWith(s[1..], Fence);
      RemoveFenceHead(s[1..]);
      assert r[1] == tail[0] == s[1];
      if s[1] == '`' {
        if |s| >= 3 {
          assert s[2] != '`';
          StartsWithFence(s[2..]);
          RemoveFenceHead(s[2..]);
          assert r[2] == tail[1] == s[2];
        } else {
          assert s[2..] == [];
          assert |r| == 2;
        }
      }
    }
  }

  /** After the second pass no three backticks in a row are left anywhere. */
  lemma {:induction false} RemoveFenceLeavesNoFence(s: string)
    ensures !Occurs(RemoveFence(s, Fence), Fence)
    decreases |s|
  {
    var r := RemoveFence(s, Fence);
    if StartsWith(s, Fence) {
      var rest := s[3..];
      if rest != [] && rest[0] == '\n' {
        RemoveFenceLeavesNoFence(rest[1..]);
      } else {
        RemoveFenceLeavesNoFence(rest);
      }
    } else if s != [] {
      var tail := RemoveFence(s[1..], Fence);
      RemoveFenceHead(s);
      RemoveFenceLeavesNoFence(s[1..]);
      NoFenceAtHead(s);
      // any later run would already be a run in the cleaned tail
      forall i | 1 <= i <= |r|
        ensures !OccursAt(r, Fence, i)
      {
        FenceAt(r, i);
        FenceAt(tail, i - 1);
        if i + 3 <= |r| {
          assert r[i] == tail[i - 1] && r[i + 1] == tail[i] && r[i + 2] == tail[i + 1];
        }
        assert !OccursAt(tail, Fence, i - 1);
      }
      assert !OccursAt(r, Fence, 0);
    }
  }

  /** A reply wrapped as a ```json block, with no backtick inside it, is cleaned
      down to its trimmed body. */
  lemma {:induction false} JsonBlockUnwraps(body: string)
    requires '`' !in body
    ensures StripFences(JsonFence + "\n" + body + "\n" + Fence) == Trim(body)
  {
    var wrapped := JsonFence + "\n" + body + "\n" + Fence;
    assert StartsWith(wrapped, JsonFence) by { assert wrapped[..7] == JsonFence; }
    var rest := wrapped[7..];
    assert rest == "\n" + (body + "\n" + Fence);
    assert rest[1..] == (body + "\n") + Fence;
    assert RemoveFence(wrapped, JsonFence) == RemoveFence((body + "\n") + Fence, JsonFence);
    assert '`' !in body + "\n";
    RemoveFenceKeepsPrefix(body + "\n", Fence, JsonFence);
    // a lone fence is too short to hold the json fence
    assert RemoveFence(Fence, JsonFence) == Fence by {
      assert RemoveFence("`", JsonFence) == "`";
      assert RemoveFence("``", JsonFence) == "`" + RemoveFence("``"[1..], JsonFence);
      assert "``"[1..] == "`";
      assert RemoveFence(Fence, JsonFence) == "`" + RemoveFence(Fence[1..], JsonFence);
      assert Fence[1..] == "``";
    }
    var first := (body + "\n") + Fence;
    assert RemoveFence(wrapped, JsonFence) == first;
    RemoveFenceKeepsPrefix(body + "\n", Fence, Fence);
    assert RemoveFence(Fence, Fence) == "" by {
      assert StartsWith(Fence, Fence);
      assert Fence[3..] == "";
    }
    assert RemoveFence(first, Fence) == body + "\n";
    TrimAppendWhitespace(body, "\n");
  }
}
