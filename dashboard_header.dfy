/**
 * The avatar initials of the customer dashboard header
 * (src/components/layouts/CustomerDashboardHeader.tsx): the first character
 * of every space-separated word, joined, uppercased and cut to two, or "U"
 * while no profile is loaded.
 */
module DashboardHeader {
  import opened Wrappers
  import Text
  import opened Sequences

  /** `word.charAt(0)`: the first character, or the empty string for an empty word. */
  function CharAt0(word: string): (r: string)
    ensures word == "" ==> r == ""
    ensures word != "" ==> r == [word[0]]
  {
    if word == "" then "" else word[..1]
  }

  /** `words.map(word => word.charAt(0))`. */
  function FirstChars(words: seq<string>): (r: seq<string>)
    ensures |r| == |words|
    ensures forall i :: 0 <= i < |words| ==> r[i] == CharAt0(words[i])
  {
    if words == [] then [] else [CharAt0(words[0])] + FirstChars(words[1..])
  }

  predicate IsNonEmpty(word: string) {
    word != ""
  }

  /** Empty words, from repeated or edge spaces, contribute nothing to the joined first characters. */
  lemma {:induction false} JoinedFirstCharsLength(words: seq<string>)
    ensures |Text.Concat(FirstChars(words))| == Count(words, IsNonEmpty)
  {
    if words != [] {
      JoinedFirstCharsLength(words[1..]);
      assert FirstChars(words)[1..] == FirstChars(words[1..]);
    }
  }

  /** For words that are all non-empty, the joined text holds each word's first character, in order. */
  lemma {:induction false} JoinedFirstCharsOfWords(words: seq<string>)
    requires forall i :: 0 <= i < |words| ==> words[i] != ""
    ensures |Text.Concat(FirstChars(words))| == |words|
    ensures forall k :: 0 <= k < |words| ==> Text.Concat(FirstChars(words))[k] == words[k][0]
  {
    if words != [] {
      JoinedFirstCharsOfWords(words[1..]);
      assert FirstChars(words)[1..] == FirstChars(words[1..]);
      var rest := Text.Concat(FirstChars(words[1..]));
      assert Text.Concat(FirstChars(words)) == [words[0][0]] + rest;
    }
  }

  /** `getUserInitials(name)`. */
  function UserInitials(name: string): (r: string)
    ensures |r| <= 2
    ensures var all := Text.Upper(Text.Concat(FirstChars(Text.Split(name, ' '))));
      |r| == (if |all| < 2 then |all| else 2) && r == all[..|r|]
  {
    var all := Text.Upper(Text.Concat(FirstChars(Text.Split(name, ' '))));
    if |all| < 2 then all else all[..2]
  }

  /** The two-word case: a first and a last name give their two first letters, uppercased. */
  lemma InitialsOfTwoWords(first: string, last: string)
    requires first != "" && last != "" && ' ' !in first && ' ' !in last
    ensures UserInitials(first + " " + last) == Text.Upper([first[0], last[0]])
  {
    var name := first + " " + last;
    Text.IndexOfFirst(name, ' ', |first|);
    assert name[..|first|] == first;
    assert name[|first| + 1..] == last;
    Text.SplitWithoutSeparator(last, ' ');
    assert Text.Split(name, ' ') == [first, last];
    JoinedFirstCharsOfWords([first, last]);
  }

  /** The avatar text: the initials of the loaded profile's name, else "U". */
  function AvatarText(profileName: Option<string>): (r: string)
    ensures profileName.None? ==> r == "U"
    ensures profileName.Some? ==> r == UserInitials(profileName.value)
    ensures |r| <= 2
  {
    match profileName
    case None => "U"
    case Some(name) => UserInitials(name)
  }
}
