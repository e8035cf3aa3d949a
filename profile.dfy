/** The profile screen: the MBTI field and the interest-tag toggles. */
module ProfileScreen {

  /** `tags.filter(t => t !== tag)`. */
  function Without(tags: seq<string>, tag: string): (r: seq<string>)
    ensures |r| <= |tags|
    ensures tag !in r
  {
    if tags == [] then []
    else (if tags[0] == tag then [] else [tags[0]]) + Without(tags[1..], tag)
  }

  /** `toggleTag`: a selected tag is removed, every copy of it; an
      unselected one is appended. */
  function ToggleTag(tags: seq<string>, tag: string): seq<string> {
    if tag in tags then Without(tags, tag) else tags + [tag]
  }

  /** `a` is `b` with some elements left out, the rest in their order. */
  predicate IsSubsequence(a: seq<string>, b: seq<string>)
    decreases |b|
  {
    a == [] || (b != [] && ((a[0] == b[0] && IsSubsequence(a[1..], b[1..])) || IsSubsequence(a, b[1..])))
  }

  /** Filtering keeps every other tag as often as before, drops the tag,
      and keeps the order. */
  lemma {:induction false} WithoutKeepsOthers(tags: seq<string>, tag: string)
    ensures forall u :: u != tag ==> multiset(Without(tags, tag))[u] == multiset(tags)[u]
    ensures IsSubsequence(Without(tags, tag), tags)
  {
    if tags != [] {
      WithoutKeepsOthers(tags[1..], tag);
      assert tags == [tags[0]] + tags[1..];
      var rest := Without(tags[1..], tag);
      if tags[0] == tag {
        assert Without(tags, tag) == rest;
        SubsequenceOfTail(rest, tags);
      } else {
        assert Without(tags, tag) == [tags[0]] + rest;
        assert ([tags[0]] + rest)[1..] == rest;
      }
    }
  }

  /** A subsequence of the tail is a subsequence of the whole. */
  lemma SubsequenceOfTail(a: seq<string>, b: seq<string>)
    requires b != [] && IsSubsequence(a, b[1..])
    ensures IsSubsequence(a, b)
  {
  }

  /** Filtering out a tag that is not there changes nothing. */
  lemma {:induction false} WithoutAbsent(tags: seq<string>, tag: string)
    requires tag !in tags
    ensures Without(tags, tag) == tags
  {
    if tags != [] {
      assert tags[0] in tags;
      WithoutAbsent(tags[1..], tag);
      assert tags == [tags[0]] + tags[1..];
    }
  }

  /** Filtering distributes over concatenation. */
  lemma {:induction false} WithoutAppend(a: seq<string>, b: seq<string>, tag: string)
    ensures Without(a + b, tag) == Without(a, tag) + Without(b, tag)
  {
    if a != [] {
      assert (a + b)[1..] == a[1..] + b;
      WithoutAppend(a[1..], b, tag);
    } else {
      assert a + b == b;
    }
  }

  /** Toggling a selected tag: it is gone, every other tag keeps its count
      and the order is kept. */
  lemma ToggleSelected(tags: seq<string>, tag: string)
    requires tag in tags
    ensures var r := ToggleTag(tags, tag);
      tag !in r && |r| < |tags| && IsSubsequence(r, tags) &&
      forall u :: u != tag ==> multiset(r)[u] == multiset(tags)[u]
  {
    WithoutKeepsOthers(tags, tag);
    WithoutShorter(tags, tag);
  }

  /** Filtering out a tag that is there shortens the list. */
  lemma {:induction false} WithoutShorter(tags: seq<string>, tag: string)
    requires tag in tags
    ensures |Without(tags, tag)| < |tags|
  {
    if tags[0] != tag {
      assert tag in tags[1..];
      WithoutShorter(tags[1..], tag);
    }
  }

  /** Toggling an unselected tag appends it; toggling it again restores the
      original list. */
  lemma ToggleUnselectedTwice(tags: seq<string>, tag: string)
    requires tag !in tags
    ensures ToggleTag(tags, tag) == tags + [tag]
    ensures ToggleTag(ToggleTag(tags, tag), tag) == tags
  {
    WithoutAppend(tags, [tag], tag);
    WithoutAbsent(tags, tag);
  }

  /** ASCII upper-casing, one character at a time. */
  function UpperChar(c: char): char {
    if 'a' <= c <= 'z' then (c as int - 32) as char else c
  }

  function ToUpper(s: string): (r: string)
    ensures |r| == |s|
    ensures forall i :: 0 <= i < |s| ==> r[i] == UpperChar(s[i])
  {
    seq(|s|, i requires 0 <= i < |s| => UpperChar(s[i]))
  }

  /** Upper-casing twice is upper-casing once. */
  lemma ToUpperIdempotent(s: string)
    ensures ToUpper(ToUpper(s)) == ToUpper(s)
    ensures forall i :: 0 <= i < |s| ==> !('a' <= ToUpper(s)[i] <= 'z')
  {
  }

  /** The saved profile. */
  datatype Saved = Saved(mbti: string, interests: seq<string>)

  class Profile {
    var mbti: string
    var selectedTags: seq<string>
    var saved: bool

    /** The input's `maxLength` keeps the code at four characters. */
    ghost predicate Valid()
      reads this
    {
      |mbti| <= 4
    }

    constructor()
      ensures Valid()
      ensures mbti == "INFP" && selectedTags == ["文学", "哲学"] && !saved
    {
      mbti := "INFP";
      selectedTags := ["文学", "哲学"];
      saved := false;
    }

    /** A change of the MBTI field: the browser has already cut the typed
        value to four characters; it is stored upper-cased. */
    method ChangeMbti(typed: string)
      requires Valid() && |typed| <= 4
      modifies this
      ensures Valid()
      ensures mbti == ToUpper(typed)
      ensures selectedTags == old(selectedTags) && saved == old(saved)
    {
      mbti := ToUpper(typed);
    }

    method Toggle(tag: string)
      requires Valid()
      modifies this
      ensures Valid()
      ensures selectedTags == ToggleTag(old(selectedTags), tag)
      ensures mbti == old(mbti) && saved == old(saved)
    {
      selectedTags := ToggleTag(selectedTags, tag);
    }

    /** `handleSave`: the record written to storage; the "saved" notice
        shows until `SavedTimeout`. */
    method HandleSave() returns (record: Saved)
      requires Valid()
      modifies this
      ensures Valid()
      ensures record == Saved(mbti, selectedTags) && saved
      ensures mbti == old(mbti) && selectedTags == old(selectedTags)
    {
      record := Saved(mbti, selectedTags);
      saved := true;
    }

    method SavedTimeout()
      requires Valid()
      modifies this
      ensures Valid()
      ensures !saved && mbti == old(mbti) && selectedTags == old(selectedTags)
    {
      saved := false;
    }
  }
}
