/** Text handling of the solution pipeline in staticfiles/bot/tasks.py: the tag
    clean-up chain shared by the channel broadcast and the solution picture, the
    500-character cut, the Markdown escaping of the broadcast and the line layout
    of the rendered picture. */
module Channel {
  import opened Wrappers
  import opened Text
  import opened Models

  /** The six markup tags the generator emits and the clean-up chain removes. */
  datatype Tag = OlOpen | OlClose | LiOpen | LiClose | StrongOpen | StrongClose

  function TagText(k: Tag): (r: string)
    ensures |r| >= 4 && r[0] == '<' && '<' !in r[1..]
  {
    match k
    case OlOpen => "<ol>"
    case OlClose => "</ol>"
    case LiOpen => "<li>"
    case LiClose => "</li>"
    case StrongOpen => "<strong>"
    case StrongClose => "</strong>"
  }

  /** What the chain puts in place of a tag: a closing list item ends a line,
      every other tag disappears. */
  function Replacement(k: Tag): (r: string)
    ensures '<' !in r
    ensures r == "\n" <==> k == LiClose
    ensures r == [] <==> k != LiClose
  {
    if k == LiClose then "\n" else ""
  }

  /** The order in which the chain applies its six `replace` calls. */
  const CHAIN: seq<Tag> := [OlOpen, OlClose, LiOpen, LiClose, StrongOpen, StrongClose]

  /** Applies the replacements of `tags`, first to last. */
  function StripWith(s: string, tags: seq<Tag>): (r: string)
    ensures |r| <= |s|
    decreases |tags|
  {
    if tags == [] then s
    else StripWith(ReplaceAll(s, TagText(tags[0]), Replacement(tags[0])), tags[1..])
  }

  /** The clean-up chain `.replace('<ol>', '')...replace('</strong>', '')`; it never
      lengthens the text. */
  function StripTags(s: string): (r: string)
    ensures |r| <= |s|
  {
    StripWith(s, CHAIN)
  }

  // A view of markup text as plain runs and tags, to state what the chain achieves.

  /** A run of text without `<`, or one of the six tags. */
  datatype Token = Plain(text: string) | Markup(tag: Tag)

  /** Every `<` of the text opens one of the six tags. */
  predicate WellFormed(toks: seq<Token>)
  {
    forall i :: 0 <= i < |toks| && toks[i].Plain? ==> '<' !in toks[i].text
  }

  function Piece(tok: Token): string
  {
    match tok
    case Plain(p) => p
    case Markup(k) => TagText(k)
  }

  function Render(toks: seq<Token>): string
    decreases |toks|
  {
    if toks == [] then [] else Piece(toks[0]) + Render(toks[1..])
  }

  /** What one token becomes once the whole chain has run. */
  function Clean(tok: Token): string
  {
    match tok
    case Plain(p) => p
    case Markup(k) => Replacement(k)
  }

  function CleanAll(toks: seq<Token>): string
    decreases |toks|
  {
    if toks == [] then [] else Clean(toks[0]) + CleanAll(toks[1..])
  }

  function SubstToken(tok: Token, k: Tag): Token
  {
    if tok == Markup(k) then Plain(Replacement(k)) else tok
  }

  function Subst(toks: seq<Token>, k: Tag): (r: seq<Token>)
    ensures |r| == |toks|
    ensures forall i :: 0 <= i < |toks| ==> r[i] == SubstToken(toks[i], k)
    decreases |toks|
  {
    if toks == [] then [] else [SubstToken(toks[0], k)] + Subst(toks[1..], k)
  }

  function SubstAll(toks: seq<Token>, tags: seq<Tag>): (r: seq<Token>)
    ensures |r| == |toks|
    decreases |tags|
  {
    if tags == [] then toks else SubstAll(Subst(toks, tags[0]), tags[1..])
  }

  /** Two distinct tags already differ at their second or third character. */
  lemma TagsDiffer(j: Tag, k: Tag)
    requires j != k
    ensures exists d :: 1 <= d <= 2 && TagText(j)[d] != TagText(k)[d]
  {
    if TagText(j)[1] == TagText(k)[1] {
      assert TagText(j)[2] != TagText(k)[2];
    }
  }

  /** A tag other than the one being replaced is copied through. */
  lemma {:induction false} OtherTagHead(j: Tag, k: Tag, t: string)
    requires j != k
    ensures ReplaceAll(TagText(j) + t, TagText(k), Replacement(k))
            == TagText(j) + ReplaceAll(t, TagText(k), Replacement(k))
  {
    TagsDiffer(j, k);
    var d :| 1 <= d <= 2 && TagText(j)[d] != TagText(k)[d];
    ReplaceAllMismatchPrefix(TagText(j), t, TagText(k), Replacement(k), d);
  }

  /** One `replace` of the chain on well-formed text turns exactly the occurrences of
      its tag into its replacement. */
  lemma {:induction false} ReplaceOnTokens(toks: seq<Token>, k: Tag)
    requires WellFormed(toks)
    ensures WellFormed(Subst(toks, k))
    ensures ReplaceAll(Render(toks), TagText(k), Replacement(k)) == Render(Subst(toks, k))
    decreases |toks|
  {
    var pat, rep := TagText(k), Replacement(k);
    if toks == [] {
      assert ReplaceAll([], pat, rep) == [];
    } else {
      var rest := toks[1..];
      assert WellFormed(rest) by {
        forall i | 0 <= i < |rest| && rest[i].Plain? ensures '<' !in rest[i].text {
          assert rest[i] == toks[i + 1];
        }
      }
      ReplaceOnTokens(rest, k);
      assert Subst(toks, k) == [SubstToken(toks[0], k)] + Subst(rest, k);
      assert Subst(toks, k)[1..] == Subst(rest, k);
      match toks[0]
      case Plain(p) =>
        assert '<' !in p by { assert toks[0].Plain?; }
        ReplaceAllPlainPrefix(p, Render(rest), pat, rep);
      case Markup(j) =>
        if j == k {
          ReplaceAllMatchHead(Render(rest), pat, rep);
        } else {
          OtherTagHead(j, k, Render(rest));
        }
    }
  }

  /** Running a list of replacements on rendered tokens renders the substituted tokens. */
  lemma {:induction false} StripWithTokens(toks: seq<Token>, tags: seq<Tag>)
    requires WellFormed(toks)
    ensures StripWith(Render(toks), tags) == Render(SubstAll(toks, tags))
    decreases |tags|
  {
    if tags != [] {
      ReplaceOnTokens(toks, tags[0]);
      StripWithTokens(Subst(toks, tags[0]), tags[1..]);
    }
  }

  /** After the whole chain, each token has become its clean form. */
  lemma {:induction false} SubstAllChain(toks: seq<Token>)
    ensures Render(SubstAll(toks, CHAIN)) == CleanAll(toks)
    decreases |toks|
  {
    if toks != [] {
      var s1 := Subst(toks, OlOpen);
      var s2 := Subst(s1, OlClose);
      var s3 := Subst(s2, LiOpen);
      var s4 := Subst(s3, LiClose);
      var s5 := Subst(s4, StrongOpen);
      var s6 := Subst(s5, StrongClose);
      assert CHAIN[1..][1..][1..][1..][1..][1..] == [];
      assert SubstAll(toks, CHAIN) == s6;
      var t0 := s6[0];
      assert t0 == SubstToken(SubstToken(SubstToken(SubstToken(SubstToken(SubstToken(toks[0], OlOpen), OlClose), LiOpen), LiClose), StrongOpen), StrongClose);
      assert Piece(t0) == Clean(toks[0]);
      var rest := toks[1..];
      SubstAllChain(rest);
      var r1 := Subst(rest, OlOpen);
      var r2 := Subst(r1, OlClose);
      var r3 := Subst(r2, LiOpen);
      var r4 := Subst(r3, LiClose);
      var r5 := Subst(r4, StrongOpen);
      var r6 := Subst(r5, StrongClose);
      assert SubstAll(rest, CHAIN) == r6;
      assert s6[1..] == r6;
    }
  }

  /** The clean-up chain on text in which every `<` opens one of the six tags: each
      `</li>` becomes a line break, the other five tags are removed and all other
      text is kept in order. */
  lemma StripTagsWellFormed(toks: seq<Token>)
    requires WellFormed(toks)
    ensures StripTags(Render(toks)) == CleanAll(toks)
  {
    StripWithTokens(toks, CHAIN);
    SubstAllChain(toks);
  }

  /** Text without `<` passes through the chain unchanged. */
  lemma StripTagsPlain(s: string)
    requires '<' !in s
    ensures StripTags(s) == s
  {
    var toks := [Plain(s)];
    assert Render(toks) == s;
    assert CleanAll(toks) == s;
    StripTagsWellFormed(toks);
  }

  /** Longest cleaned solution the broadcast carries before it is cut. */
  const CHANNEL_SOLUTION_LIMIT: nat := 500

  /** The cleaned solution of the broadcast: longer than 500 characters, it is cut to
      its first 500 and `...` is appended. */
  function ChannelSolution(solution: string): (r: string)
    ensures var c := StripTags(solution);
            && |r| <= CHANNEL_SOLUTION_LIMIT + 3
            && (|c| <= CHANNEL_SOLUTION_LIMIT ==> r == c)
            && (|c| > CHANNEL_SOLUTION_LIMIT ==>
                  (&& |r| == CHANNEL_SOLUTION_LIMIT + 3
                   && r[..CHANNEL_SOLUTION_LIMIT] == c[..CHANNEL_SOLUTION_LIMIT]
                   && r[CHANNEL_SOLUTION_LIMIT..] == "..."))
  {
    var c := StripTags(solution);
    if |c| > CHANNEL_SOLUTION_LIMIT then c[..CHANNEL_SOLUTION_LIMIT] + "..." else c
  }

  /** The 18 characters the broadcast escapes for Telegram Markdown, in the order of
      the source's list. */
  const MARKDOWN_SPECIALS: seq<char> :=
    ['_', '*', '[', ']', '(', ')', '~', '`', '>', '#', '+', '-', '=', '|', '{', '}', '.', '!']

  /** `s` with a backslash put before every character that is in `chars`. */
  function EscapeOnly(s: string, chars: seq<char>): (r: string)
    ensures |r| >= |s|
    ensures (forall i :: 0 <= i < |s| ==> s[i] !in chars) ==> r == s
    decreases |s|
  {
    if s == [] then []
    else (if s[0] in chars then ['\\', s[0]] else [s[0]]) + EscapeOnly(s[1..], chars)
  }

  /** What `escape_markdown` computes: one backslash before each special character. */
  function Escaped(s: string): string
  {
    EscapeOnly(s, MARKDOWN_SPECIALS)
  }

  /** Escaping one more character with `replace` on text already escaped for `chars`. */
  lemma {:induction false} EscapeStep(s: string, chars: seq<char>, c: char)
    requires c !in chars && c != '\\'
    ensures ReplaceAll(EscapeOnly(s, chars), [c], ['\\', c]) == EscapeOnly(s, chars + [c])
    decreases |s|
  {
    var pat, rep := [c], ['\\', c];
    if s == [] {
      assert ReplaceAll([], pat, rep) == [];
    } else {
      var rest := EscapeOnly(s[1..], chars);
      EscapeStep(s[1..], chars, c);
      if s[0] in chars {
        ReplaceAllPlainPrefix(['\\', s[0]], rest, pat, rep);
      } else if s[0] == c {
        ReplaceAllMatchHead(rest, pat, rep);
      } else {
        ReplaceAllPlainPrefix([s[0]], rest, pat, rep);
      }
    }
  }

  /** One round of `escape_markdown`'s loop: escaping the `i`-th special character in
      text escaped for the ones before it escapes it for one more. */
  lemma EscapeMarkdownStep(text: string, i: nat)
    requires i < |MARKDOWN_SPECIALS|
    ensures ReplaceAll(EscapeOnly(text, MARKDOWN_SPECIALS[..i]), [MARKDOWN_SPECIALS[i]], ['\\', MARKDOWN_SPECIALS[i]])
            == EscapeOnly(text, MARKDOWN_SPECIALS[..i + 1])
  {
    SpecialIsNew(i);
    EscapeStep(text, MARKDOWN_SPECIALS[..i], MARKDOWN_SPECIALS[i]);
  }

  /** The special characters are listed without repeats and do not include the
      backslash. */
  lemma SpecialIsNew(i: nat)
    requires i < |MARKDOWN_SPECIALS|
    ensures MARKDOWN_SPECIALS[i] !in MARKDOWN_SPECIALS[..i] && MARKDOWN_SPECIALS[i] != '\\'
    ensures MARKDOWN_SPECIALS[..i + 1] == MARKDOWN_SPECIALS[..i] + [MARKDOWN_SPECIALS[i]]
  {
  }

  /** `escape_markdown`: one `replace` per special character, in the list's order. */
  method EscapeMarkdown(text: string) returns (r: string)
    ensures r == Escaped(text)
  {
    r := text;
    assert text == EscapeOnly(text, []);
    for i := 0 to |MARKDOWN_SPECIALS|
      invariant r == EscapeOnly(text, MARKDOWN_SPECIALS[..i])
    {
      var c := MARKDOWN_SPECIALS[i];
      EscapeMarkdownStep(text, i);
      r := ReplaceAll(r, [c], ['\\', c]);
    }
    assert MARKDOWN_SPECIALS[..|MARKDOWN_SPECIALS|] == MARKDOWN_SPECIALS;
  }

  /** Removes the backslash in front of each special character; undoes `Escaped`. */
  function Unescape(s: string): string
    decreases |s|
  {
    if |s| >= 2 && s[0] == '\\' && s[1] in MARKDOWN_SPECIALS then [s[1]] + Unescape(s[2..])
    else if s == [] then []
    else [s[0]] + Unescape(s[1..])
  }

  /** Escaping changes nothing but the inserted backslashes. */
  lemma {:induction false} UnescapeEscaped(s: string)
    ensures Unescape(Escaped(s)) == s
    ensures Escaped(s) != [] ==> Escaped(s)[0] !in MARKDOWN_SPECIALS
    decreases |s|
  {
    if s != [] {
      var rest := Escaped(s[1..]);
      UnescapeEscaped(s[1..]);
      if s[0] in MARKDOWN_SPECIALS {
        assert Escaped(s) == ['\\', s[0]] + rest;
        assert Escaped(s)[2..] == rest;
      } else {
        assert Escaped(s) == [s[0]] + rest;
        assert Escaped(s)[1..] == rest;
        if s[0] == '\\' && rest != [] {
          assert Escaped(s)[1] == rest[0];
        }
      }
      assert s == [s[0]] + s[1..];
    }
  }

  /** Length of the task excerpt the broadcast quotes. */
  const EXCERPT_LIMIT: nat := 100

  /** The variable parts of the broadcast message; the surrounding wording is fixed. */
  datatype ChannelPost = ChannelPost(
    description: string,
    ellipsis: bool,
    solution: string,
    username: string,
    taskId: TaskId)

  /** The author's name as the broadcast shows it: `Аноним` when there is none. */
  function DisplayName(username: Option<string>): (r: string)
    ensures r != []
    ensures username.Some? && username.value != [] ==> r == username.value
    ensures username.None? || username.value == [] ==> r == "Аноним"
  {
    if username.Some? && username.value != "" then username.value else "Аноним"
  }

  /** The message parts `send_channel_message` sends for a solved task. */
  function ChannelPostFor(description: string, solution: string, username: Option<string>, taskId: TaskId): (p: ChannelPost)
    ensures p.taskId == taskId
    ensures p.ellipsis <==> |description| > EXCERPT_LIMIT
  {
    ChannelPost(Escaped(Take(description, EXCERPT_LIMIT)), |description| > EXCERPT_LIMIT,
                Escaped(ChannelSolution(solution)), Escaped(DisplayName(username)), taskId)
  }

  /** A reader who undoes the Markdown escaping sees the first 100 characters of the
      task, the cut and cleaned solution and the author's name; the `...` mark is
      shown exactly when the task text was cut. */
  lemma ChannelPostContent(description: string, solution: string, username: Option<string>, taskId: TaskId)
    ensures var p := ChannelPostFor(description, solution, username, taskId);
            && Unescape(p.description) == Take(description, EXCERPT_LIMIT)
            && (p.ellipsis <==> Unescape(p.description) != description)
            && Unescape(p.solution) == ChannelSolution(solution)
            && |Unescape(p.solution)| <= CHANNEL_SOLUTION_LIMIT + 3
            && Unescape(p.username) == DisplayName(username)
            && p.taskId == taskId
  {
    UnescapeEscaped(Take(description, EXCERPT_LIMIT));
    UnescapeEscaped(ChannelSolution(solution));
    UnescapeEscaped(DisplayName(username));
  }

  /** `send_channel_message`: escapes the first 100 characters of the task text (with
      `...` after them when the text is longer), the cut and cleaned solution, and the
      author's username, `Аноним` when there is none. */
  method BuildChannelPost(description: string, solution: string, username: Option<string>, taskId: TaskId)
    returns (post: ChannelPost)
    ensures post == ChannelPostFor(description, solution, username, taskId)
  {
    var clean := StripTags(solution);
    if |clean| > CHANNEL_SOLUTION_LIMIT {
      clean := clean[..CHANNEL_SOLUTION_LIMIT] + "...";
    }
    var safeDescription := EscapeMarkdown(Take(description, EXCERPT_LIMIT));
    var safeSolution := EscapeMarkdown(clean);
    var name := if username.Some? && username.value != "" then username.value else "Аноним";
    var safeUsername := EscapeMarkdown(name);
    assert clean == ChannelSolution(solution);
    post := ChannelPost(safeDescription, |description| > EXCERPT_LIMIT, safeSolution, safeUsername, taskId);
  }
}
