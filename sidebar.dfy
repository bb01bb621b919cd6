/** The sidebar: the application's navigation links, which one is
    highlighted, and the initials shown in the user's avatar. */
module Sidebar {
  import opened Wrappers
  import Text

  const NAVIGATION: seq<string> :=
    ["/dashboard", "/catalogs/upload", "/catalogs", "/products", "/reports", "/link-analyzer"]
  const BOTTOM_NAVIGATION: seq<string> := ["/subscription", "/settings"]

  /** A link is highlighted when the current path is exactly its href. */
  predicate IsActive(pathname: string, href: string)
  {
    pathname == href
  }

  /** The hrefs of the links, main then bottom, that are highlighted. */
  function ActiveLinks(hrefs: seq<string>, pathname: string): (active: seq<string>)
    ensures forall h :: h in active ==> h in hrefs && IsActive(pathname, h)
  {
    if hrefs == [] then []
    else (if IsActive(pathname, hrefs[0]) then [hrefs[0]] else []) + ActiveLinks(hrefs[1..], pathname)
  }

  predicate Distinct(hrefs: seq<string>)
  {
    forall i, j :: 0 <= i < j < |hrefs| ==> hrefs[i] != hrefs[j]
  }

  /** Among distinct hrefs, the current path highlights its own link if there
      is one and nothing else. */
  lemma {:induction false} ActiveLinksOfDistinct(hrefs: seq<string>, pathname: string)
    requires Distinct(hrefs)
    ensures ActiveLinks(hrefs, pathname) == if pathname in hrefs then [pathname] else []
  {
    if hrefs != [] {
      ActiveLinksOfDistinct(hrefs[1..], pathname);
      if pathname == hrefs[0] {
        assert pathname !in hrefs[1..] by {
          forall j | 0 <= j < |hrefs[1..]| ensures hrefs[1..][j] != pathname {
            assert hrefs[1..][j] == hrefs[j + 1];
          }
        }
      } else {
        assert pathname in hrefs <==> pathname in hrefs[1..] by {
          assert hrefs == [hrefs[0]] + hrefs[1..];
        }
      }
    }
  }

  /** The highlighted link on any page: at most one, and exactly the page's
      own link when the page is in the sidebar. */
  function Highlighted(pathname: string): (active: seq<string>)
    ensures active == if pathname in NAVIGATION + BOTTOM_NAVIGATION then [pathname] else []
  {
    var hrefs := NAVIGATION + BOTTOM_NAVIGATION;
    assert Distinct(hrefs) by {
      forall i, j | 0 <= i < j < |hrefs| ensures hrefs[i] != hrefs[j] {
        assert |hrefs[i]| != |hrefs[j]| || hrefs[i][1] != hrefs[j][1] || hrefs[i][2] != hrefs[j][2];
      }
    }
    ActiveLinksOfDistinct(hrefs, pathname);
    ActiveLinks(hrefs, pathname)
  }

  /** `words.map(n => n[0]).join('')`: the first character of every word;
      an empty word contributes nothing (its `n[0]` is `undefined`, which
      `join` renders as the empty string). */
  function Initials(words: seq<string>): string
  {
    if words == [] then []
    else (if words[0] == [] then [] else [words[0][0]]) + Initials(words[1..])
  }

  /** `getUserInitials()`: 'U' when there is no user or the name is empty;
      otherwise the first characters of the space-separated words,
      upper-cased, at most two of them. */
  function GetUserInitials(name: Option<string>): (initials: string)
    ensures |initials| <= 2
    ensures name == None || name == Some([]) ==> initials == "U"
  {
    if name.None? || name.value == [] then "U"
    else Text.Take(Text.UpperCase(Initials(Text.Split(name.value, ' '))), 2)
  }

  lemma {:induction false} InitialsOfNonEmptyWords(words: seq<string>)
    requires forall i :: 0 <= i < |words| ==> words[i] != []
    ensures |Initials(words)| == |words|
    ensures forall i :: 0 <= i < |words| ==> Initials(words)[i] == words[i][0]
  {
    if words != [] {
      InitialsOfNonEmptyWords(words[1..]);
      assert forall i :: 1 <= i < |words| ==> words[i] == words[1..][i - 1];
    }
  }

  /** Words joined by single spaces split back into the same words, so the
      name's initials are those of the words. */
  lemma JoinedNameInitials(words: seq<string>)
    requires |words| >= 1
    requires forall i :: 0 <= i < |words| ==> words[i] != [] && ' ' !in words[i]
    ensures Text.Join(words, ' ') != []
    ensures GetUserInitials(Some(Text.Join(words, ' '))) == Text.Take(Text.UpperCase(Initials(words)), 2)
  {
    if |words| == 1 {
      assert Text.Join(words, ' ') == words[0];
    } else {
      assert Text.Join(words, ' ') == words[0] + [' '] + Text.Join(words[1..], ' ');
    }
    Text.SplitJoin(words, ' ');
  }

  /** The first two upper-cased initials of non-empty words (one for a
      single word). */
  lemma FirstInitials(words: seq<string>)
    requires |words| >= 1
    requires forall i :: 0 <= i < |words| ==> words[i] != []
    ensures |words| == 1 ==> Text.Take(Text.UpperCase(Initials(words)), 2) == [Text.UpperAscii(words[0][0])]
    ensures |words| >= 2 ==>
              Text.Take(Text.UpperCase(Initials(words)), 2) ==
              [Text.UpperAscii(words[0][0]), Text.UpperAscii(words[1][0])]
  {
    LeadingInitials(words);
    TakeTwoUpper(Initials(words));
  }

  /** The first one or two initials of non-empty words. */
  lemma LeadingInitials(words: seq<string>)
    requires |words| >= 1
    requires forall i :: 0 <= i < |words| ==> words[i] != []
    ensures |words| == 1 ==> Initials(words) == [words[0][0]]
    ensures |words| >= 2 ==>
              |Initials(words)| >= 2 && Initials(words)[0] == words[0][0] && Initials(words)[1] == words[1][0]
  {
    assert words[0] != [];
    if |words| == 1 {
      assert Initials(words[1..]) == [];
    } else {
      assert words[1..][0] == words[1] && words[1] != [];
      assert Initials(words) == [words[0][0]] + ([words[1][0]] + Initials(words[1..][1..]));
    }
  }

  /** `slice(0, 2)` of an upper-cased string. */
  lemma TakeTwoUpper(s: string)
    requires |s| >= 1
    ensures |s| == 1 ==> Text.Take(Text.UpperCase(s), 2) == [Text.UpperAscii(s[0])]
    ensures |s| >= 2 ==> Text.Take(Text.UpperCase(s), 2) == [Text.UpperAscii(s[0]), Text.UpperAscii(s[1])]
  {
    var upper := Text.UpperCase(s);
    if |s| == 1 {
      assert Text.Take(upper, 2) == [upper[0]];
    } else {
      assert Text.Take(upper, 2) == [upper[0], upper[1]];
    }
  }

  /** A name made of non-empty words separated by single spaces shows the
      upper-cased first letters of its first two words (one letter for a
      one-word name). */
  lemma NameInitials(words: seq<string>)
    requires |words| >= 1
    requires forall i :: 0 <= i < |words| ==> words[i] != [] && ' ' !in words[i]
    ensures Text.Join(words, ' ') != []
    ensures |words| == 1 ==> GetUserInitials(Some(Text.Join(words, ' '))) == [Text.UpperAscii(words[0][0])]
    ensures |words| >= 2 ==>
              GetUserInitials(Some(Text.Join(words, ' '))) ==
              [Text.UpperAscii(words[0][0]), Text.UpperAscii(words[1][0])]
  {
    JoinedNameInitials(words);
    FirstInitials(words);
  }

  function Spaces(k: nat): (s: string)
    ensures |s| == k && forall i :: 0 <= i < k ==> s[i] == ' '
  {
    if k == 0 then [] else [' '] + Spaces(k - 1)
  }

  lemma {:induction false} SplitSpaces(k: nat)
    ensures |Text.Split(Spaces(k), ' ')| == k + 1
    ensures forall i :: 0 <= i <= k ==> Text.Split(Spaces(k), ' ')[i] == []
  {
    if k > 0 {
      SplitSpaces(k - 1);
      assert Spaces(k)[1..] == Spaces(k - 1);
    }
  }

  lemma {:induction false} InitialsOfEmptyWords(words: seq<string>)
    requires forall i :: 0 <= i < |words| ==> words[i] == []
    ensures Initials(words) == []
  {
    if words != [] {
      InitialsOfEmptyWords(words[1..]);
    }
  }

  /** A name made only of spaces is not empty, so it does not fall back to
      'U', yet every word of it is empty: the avatar shows no initials. */
  lemma SpacesOnlyNameHasNoInitials(k: nat)
    requires k >= 1
    ensures GetUserInitials(Some(Spaces(k))) == []
  {
    SplitSpaces(k);
    InitialsOfEmptyWords(Text.Split(Spaces(k), ' '));
  }
  /** A piece of the split name that holds at least one character. */
  predicate IsWord(piece: string)
  {
    piece != []
  }

  /** The words of a name: the pieces between spaces that are not empty. */
  function Words(name: string): (words: seq<string>)
    ensures forall i :: 0 <= i < |words| ==> words[i] != [] && ' ' !in words[i]
  {
    var pieces := Text.Split(name, ' ');
    var words := Text.Filter(pieces, IsWord);
    Text.FilterKeeps(pieces, IsWord);
    assert forall i :: 0 <= i < |words| ==> words[i] in words;
    words
  }

  /** Empty pieces contribute nothing to the initials. */
  lemma {:induction false} InitialsSkipEmpty(pieces: seq<string>)
    ensures Initials(pieces) == Initials(Text.Filter(pieces, IsWord))
  {
    if pieces != [] {
      InitialsSkipEmpty(pieces[1..]);
      var rest := Text.Filter(pieces[1..], IsWord);
      if IsWord(pieces[0]) {
        assert ([pieces[0]] + rest)[1..] == rest;
      }
    }
  }

  /** For every non-empty name the avatar shows the upper-cased first
      letters of its first two words, whatever runs of spaces surround or
      separate them; a name with no word shows nothing. */
  lemma UserInitialsOfName(name: string)
    requires name != []
    ensures Words(name) == [] ==> GetUserInitials(Some(name)) == []
    ensures |Words(name)| == 1 ==> GetUserInitials(Some(name)) == [Text.UpperAscii(Words(name)[0][0])]
    ensures |Words(name)| >= 2 ==>
              GetUserInitials(Some(name)) == [Text.UpperAscii(Words(name)[0][0]), Text.UpperAscii(Words(name)[1][0])]
  {
    var words := Words(name);
    InitialsSkipEmpty(Text.Split(name, ' '));
    assert GetUserInitials(Some(name)) == Text.Take(Text.UpperCase(Initials(words)), 2);
    if words != [] {
      FirstInitials(words);
    }
  }
}
