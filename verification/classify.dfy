/** The two reply classifiers: the first `<INFO>…</INFO>` span on one line,
    matched without regard to case, or else a keyword cascade over the
    lower-cased reply. */
module Classify {
  import opened Options
  import opened Text

  const OpenTag := "<info>"
  const CloseTag := "</info>"

  /** A tag, ignoring case, at position `i`. */
  predicate TagAt(s: string, tag: string, i: int) {
    OccursAt(Lower(s), tag, i)
  }

  /** No line break in `s[from..to]`. */
  predicate OneLine(s: string, from: int, to: int) {
    forall m :: from <= m < to && 0 <= m < |s| ==> s[m] != '\n'
  }

  /** The lazy `(.*?)</INFO>` part: the first closing tag at or after `j`
      reached without crossing a line break. */
  function CloseFrom(s: string, j: nat): (r: Option<nat>)
    requires j <= |s|
    ensures r.Some? ==> j <= r.value <= |s| && TagAt(s, CloseTag, r.value) && OneLine(s, j, r.value)
    ensures r.Some? ==> forall m :: j <= m < r.value ==> !TagAt(s, CloseTag, m)
    ensures r.None? ==> forall m :: j <= m <= |s| && OneLine(s, j, m) ==> !TagAt(s, CloseTag, m)
    decreases |s| - j
  {
    if TagAt(s, CloseTag, j) then Some(j)
    else if j < |s| && s[j] != '\n' then CloseFrom(s, j + 1)
    else None
  }

  /** A match of `<INFO>(.*?)</INFO>` starts at `a`: an opening tag, then a
      closing tag later on the same line. */
  predicate MatchStartsAt(s: string, a: int) {
    && 0 <= a && a + |OpenTag| <= |s| && TagAt(s, OpenTag, a)
    && exists k :: a + |OpenTag| <= k <= |s| && OneLine(s, a + |OpenTag|, k) && TagAt(s, CloseTag, k)
  }

  /** The leftmost match at or after `i`, as the bounds of its captured text. */
  function FindInfo(s: string, i: nat): (r: Option<(nat, nat)>)
    requires i <= |s|
    ensures r.Some? ==> var (a, k) := r.value;
      && i <= a && MatchStartsAt(s, a) && a + |OpenTag| <= k <= |s|
      && TagAt(s, CloseTag, k) && OneLine(s, a + |OpenTag|, k)
      && (forall m :: a + |OpenTag| <= m < k ==> !TagAt(s, CloseTag, m))
      && (forall b :: i <= b < a ==> !MatchStartsAt(s, b))
    ensures r.None? ==> forall b :: i <= b <= |s| ==> !MatchStartsAt(s, b)
    decreases |s| - i
  {
    if i + |OpenTag| <= |s| && TagAt(s, OpenTag, i) && CloseFrom(s, i + |OpenTag|).Some? then
      Some((i, CloseFrom(s, i + |OpenTag|).value))
    else if i < |s| then
      assert !MatchStartsAt(s, i);
      FindInfo(s, i + 1)
    else
      assert !MatchStartsAt(s, i);
      None
  }

  /** `re.findall(r'<INFO>(.*?)</INFO>', text, re.IGNORECASE)[0]`, when there is a match. */
  function FirstInfo(s: string): (r: Option<string>)
    ensures r.None? <==> forall b :: 0 <= b <= |s| ==> !MatchStartsAt(s, b)
  {
    match FindInfo(s, 0)
    case Some((a, k)) => Some(s[a + |OpenTag|..k])
    case None => None
  }

  /** `extract_modality`. */
  function ExtractModality(response: string): (r: string)
    ensures FirstInfo(response).Some? ==> r == Strip(FirstInfo(response).value)
    ensures FirstInfo(response).None? ==> r in {"Website", "Application", "Game", "CLI Tool"}
  {
    match FirstInfo(response)
    case Some(tagged) => Strip(tagged)
    case None => ModalityKeywords(Lower(response))
  }

  function ModalityKeywords(t: string): string {
    if Contains(t, "website") || Contains(t, "web") then "Website"
    else if Contains(t, "application") || Contains(t, "app") then "Application"
    else if Contains(t, "game") then "Game"
    else if Contains(t, "cli") || Contains(t, "command") then "CLI Tool"
    else "Application"
  }

  /** `extract_language`. */
  function ExtractLanguage(response: string): (r: string)
    ensures FirstInfo(response).Some? ==> r == Strip(FirstInfo(response).value)
    ensures FirstInfo(response).None? ==> r in {"Python", "JavaScript", "Java", "C++"}
  {
    match FirstInfo(response)
    case Some(tagged) => Strip(tagged)
    case None => LanguageKeywords(Lower(response))
  }

  function LanguageKeywords(t: string): string {
    if Contains(t, "python") then "Python"
    else if Contains(t, "javascript") || Contains(t, "js") then "JavaScript"
    else if Contains(t, "java") then "Java"
    else if Contains(t, "c++") || Contains(t, "cpp") then "C++"
    else "Python"
  }

  /** The captured text is pinned down by the match itself: the leftmost
      starting point, then the first closing tag after it on the same line. */
  lemma FirstInfoIs(s: string, a: nat, k: nat)
    requires MatchStartsAt(s, a) && forall b :: 0 <= b < a ==> !MatchStartsAt(s, b)
    requires a + |OpenTag| <= k <= |s| && TagAt(s, CloseTag, k) && OneLine(s, a + |OpenTag|, k)
    requires forall m :: a + |OpenTag| <= m < k ==> !TagAt(s, CloseTag, m)
    ensures FirstInfo(s) == Some(s[a + |OpenTag|..k])
  {
    var r := FindInfo(s, 0);
    assert r.Some?;
    var (a', k') := r.value;
    assert a' == a;
    assert k' == k;
  }

  /** An empty span gives the empty modality. */
  lemma EmptyTagModality(s: string, a: nat)
    requires forall b :: 0 <= b < a ==> !MatchStartsAt(s, b)
    requires a + 13 <= |s| && TagAt(s, OpenTag, a) && TagAt(s, CloseTag, a + 6)
    ensures ExtractModality(s) == ""
  {
    assert MatchStartsAt(s, a) by {
      assert OneLine(s, a + 6, a + 6);
    }
    FirstInfoIs(s, a, a + 6);
  }

  /** `s` contains `small` wherever it contains `big`, when `small` sits in `big` at `i`. */
  lemma ContainsVia(s: string, big: string, small: string, i: int)
    requires OccursAt(big, small, i)
    ensures Contains(s, big) ==> Contains(s, small)
  {
    if Contains(s, big) {
      assert Contains(big, small);
      ContainsTransitive(s, big, small);
    }
  }

  /** Which fallback modality each text gets: an earlier keyword shadows
      every later one, and `Application` is also the default. */
  lemma ModalityCascade(t: string)
    ensures ModalityKeywords(t) == "Website" <==> Contains(t, "web")
    ensures ModalityKeywords(t) == "Game"
        <==> !Contains(t, "web") && !Contains(t, "app") && Contains(t, "game")
    ensures ModalityKeywords(t) == "CLI Tool"
        <==> !Contains(t, "web") && !Contains(t, "app") && !Contains(t, "game")
             && (Contains(t, "cli") || Contains(t, "command"))
    ensures ModalityKeywords(t) == "Application"
        <==> !Contains(t, "web")
             && (Contains(t, "app") || (!Contains(t, "game") && !Contains(t, "cli") && !Contains(t, "command")))
  {
    ContainsVia(t, "website", "web", 0);
    ContainsVia(t, "application", "app", 0);
  }

  /** Which fallback language each text gets: `python` anywhere wins, and
      `java` counts only without `javascript` or `js`. */
  lemma LanguageCascade(t: string)
    ensures LanguageKeywords(t) == "Python"
        <==> Contains(t, "python")
             || (!Contains(t, "js") && !Contains(t, "java") && !Contains(t, "c++") && !Contains(t, "cpp"))
    ensures LanguageKeywords(t) == "JavaScript"
        <==> !Contains(t, "python") && (Contains(t, "javascript") || Contains(t, "js"))
    ensures LanguageKeywords(t) == "Java"
        <==> !Contains(t, "python") && !Contains(t, "javascript") && !Contains(t, "js") && Contains(t, "java")
    ensures LanguageKeywords(t) == "C++"
        <==> !Contains(t, "python") && !Contains(t, "js") && !Contains(t, "java")
             && (Contains(t, "c++") || Contains(t, "cpp"))
  {
    ContainsVia(t, "javascript", "java", 0);
  }

  /** A reply with no tag that mentions Python, in any case, selects Python. */
  lemma PythonWins(response: string)
    requires FirstInfo(response).None? && Contains(Lower(response), "python")
    ensures ExtractLanguage(response) == "Python"
  {
  }
}
