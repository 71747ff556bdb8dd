/**
 The address bar's "go" key.

 The text typed into the address bar is trimmed the way Java's String.trim does
 it (every character up to U+0020 is dropped from both ends). Blank input puts
 the current page's URL back into the bar and loads nothing; otherwise the input
 is loaded as given when it is a valid URL, sent to a Google search when it
 holds a space or no dot, and handed to the platform's URL guesser in every
 other case.

 The platform's URL validity test and URL guesser are parameters: their rules are
 not part of this model.
 */
module AddressBar {

  /** A character String.trim drops: a control character or a space. */
  predicate Blank(c: char)
  {
    c <= ' '
  }

  /** True when `s` has no blank at either end. */
  predicate IsTrimmed(s: string)
  {
    s != [] ==> !Blank(s[0]) && !Blank(s[|s| - 1])
  }

  /** True when every character of `s` is blank. */
  predicate AllBlank(s: string)
  {
    forall i :: 0 <= i < |s| ==> Blank(s[i])
  }

  /** Number of blank characters at the start of `s`. */
  function LeadingBlanks(s: string): (k: nat)
    ensures k <= |s|
    ensures forall i :: 0 <= i < k ==> Blank(s[i])
    ensures k < |s| ==> !Blank(s[k])
  {
    if s == [] || !Blank(s[0]) then 0 else 1 + LeadingBlanks(s[1..])
  }

  /** Length of `s` without its trailing blank characters. */
  function ContentEnd(s: string): (e: nat)
    ensures e <= |s|
    ensures forall i :: e <= i < |s| ==> Blank(s[i])
    ensures e > 0 ==> !Blank(s[e - 1])
  {
    if s == [] || !Blank(s[|s| - 1]) then |s| else ContentEnd(s[..|s| - 1])
  }

  /** String.trim. */
  function Trim(s: string): (t: string)
    ensures |t| <= |s|
    ensures t == [] <==> AllBlank(s)
    ensures IsTrimmed(t)
  {
    var k := LeadingBlanks(s);
    if k == |s| then [] else s[k..ContentEnd(s)]
  }

  /** Blank padding put together is blank padding. */
  lemma AllBlankAppend(a: string, b: string)
    requires AllBlank(a) && AllBlank(b)
    ensures AllBlank(a + b)
  {
  }

  /** Concatenation regrouped. */
  lemma Regroup(pre: string, a: string, core: string, b: string, post: string)
    ensures pre + (a + core + b) + post == (pre + a) + core + (b + post)
  {
  }

  /** Trimming removes exactly the blank padding: whatever blanks surround a
      trimmed string, trimming gives that string back. */
  lemma TrimRemovesPadding(pre: string, core: string, post: string)
    requires AllBlank(pre) && AllBlank(post) && IsTrimmed(core)
    ensures Trim(pre + core + post) == core
  {
    var s := pre + core + post;
    if core == [] {
      assert forall i :: 0 <= i < |s| ==> Blank(s[i]) by {
        forall i | 0 <= i < |s| ensures Blank(s[i]) {
          if i < |pre| { assert s[i] == pre[i]; } else { assert s[i] == post[i - |pre|]; }
        }
      }
    } else {
      var k := LeadingBlanks(s);
      assert s[|pre|] == core[0];
      assert k == |pre|;
      var e := ContentEnd(s);
      assert s[|pre| + |core| - 1] == core[|core| - 1];
      assert e == |pre| + |core|;
      assert s[k..e] == core;
    }
  }

  /** Every string is its trimmed form with blank padding on both sides. */
  lemma TrimSplits(s: string) returns (a: string, b: string)
    ensures AllBlank(a) && AllBlank(b) && s == a + Trim(s) + b
  {
    var k := LeadingBlanks(s);
    if k == |s| {
      a, b := s, [];
    } else {
      a, b := s[..k], s[ContentEnd(s)..];
    }
  }

  /** Blank padding around any string is lost in trimming. */
  lemma TrimIgnoresPadding(pre: string, text: string, post: string)
    requires AllBlank(pre) && AllBlank(post)
    ensures Trim(pre + text + post) == Trim(text)
  {
    var a, b := TrimSplits(text);
    var core := Trim(text);
    Regroup(pre, a, core, b, post);
    AllBlankAppend(pre, a);
    AllBlankAppend(b, post);
    TrimRemovesPadding(pre + a, core, b + post);
  }

  /** Trimming twice is trimming once. */
  lemma TrimIdempotent(s: string)
    ensures Trim(Trim(s)) == Trim(s)
  {
    TrimRemovesPadding([], Trim(s), []);
    assert [] + Trim(s) + [] == Trim(s);
  }

  /** Android's EditorInfo.IME_ACTION_GO, the action of the keyboard's "go" key. */
  const ImeActionGo: int := 2

  /** Where a search for the typed text starts. */
  const GoogleSearchPrefix: string := "https://www.google.com/search?q="

  /** What the editor-action listener does. */
  datatype EditorAction =
    | NotHandled               // another key: the listener returns false
    | ResetText(text: string)  // blank input: the bar shows the current URL again
    | LoadUrl(url: string)     // the WebView is sent to `url`

  /** The URL loaded for trimmed, non-blank input. */
  function ResolveInput(input: string, isValidUrl: string -> bool, guessUrl: string -> string): (url: string)
    // A valid URL is loaded as typed.
    ensures isValidUrl(input) ==> url == input
    // Input with a space or without a dot is a search whose query is the input,
    // unencoded.
    ensures !isValidUrl(input) && (' ' in input || '.' !in input) ==>
              |url| == |GoogleSearchPrefix| + |input| &&
              url[..|GoogleSearchPrefix|] == GoogleSearchPrefix && url[|GoogleSearchPrefix|..] == input
    // Only a single dotted word that is not a valid URL is guessed at.
    ensures !isValidUrl(input) && ' ' !in input && '.' in input ==> url == guessUrl(input)
  {
    if isValidUrl(input) then
      input
    else if ' ' in input || '.' !in input then
      GoogleSearchPrefix + input
    else
      guessUrl(input)
  }

  /** The "go" key, given the text in the bar and the URL of the current page. */
  function OnEditorAction(actionId: int, text: string, currentUrl: string,
                          isValidUrl: string -> bool, guessUrl: string -> string): (r: EditorAction)
    ensures r.NotHandled? <==> actionId != ImeActionGo
    ensures r.ResetText? <==> actionId == ImeActionGo && AllBlank(text)
    ensures r.ResetText? ==> r.text == currentUrl
    ensures r.LoadUrl? ==> Trim(text) != [] && r.url == ResolveInput(Trim(text), isValidUrl, guessUrl)
  {
    if actionId == ImeActionGo then
      if Trim(text) == [] then
        ResetText(currentUrl)
      else
        LoadUrl(ResolveInput(Trim(text), isValidUrl, guessUrl))
    else
      NotHandled
  }

  /** Blank padding around what is typed never changes what the "go" key does. */
  lemma OnEditorActionIgnoresPadding(actionId: int, pre: string, text: string, post: string, currentUrl: string,
                                     isValidUrl: string -> bool, guessUrl: string -> string)
    requires AllBlank(pre) && AllBlank(post)
    ensures OnEditorAction(actionId, pre + text + post, currentUrl, isValidUrl, guessUrl)
         == OnEditorAction(actionId, text, currentUrl, isValidUrl, guessUrl)
  {
    TrimIgnoresPadding(pre, text, post);
  }
}
