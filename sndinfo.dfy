/**
 * The Hexen SNDINFO loader (prboom2/src/dsda/sndinfo.c), over the lump's
 * token stream: tag names map sound effects to lump names, `$ARCHIVEPATH`
 * and `$MAP` directives are skipped with their arguments, a `?` name means
 * "default", and no effect is left with an empty name.
 */
module SndInfo {

  /** An entry of S_sfx, as far as the loader sees it. */
  datatype SfxEntry = SfxEntry(tagName: string, name: string)

  const DefaultName := "default"

  /** ASCII tolower, as strcasecmp compares. */
  function Lower(c: char): char {
    if 'A' <= c <= 'Z' then (c as int + 32) as char else c
  }

  /** strcasecmp(a, b) == 0 */
  predicate EqualsIgnoreCase(a: string, b: string) {
    |a| == |b| && forall i :: 0 <= i < |a| ==> Lower(a[i]) == Lower(b[i])
  }

  /** A token starting with `$` is a directive. */
  predicate IsDirective(token: string) {
    |token| > 0 && token[0] == '$'
  }

  /**
   * How many tokens a directive consumes after itself: a path after
   * `$ARCHIVEPATH`, a number and a string after `$MAP`, none after any
   * other directive.
   */
  function DirectiveArgs(token: string): (n: nat)
    ensures n <= 2
    ensures n == 1 <==> EqualsIgnoreCase(token, "$ARCHIVEPATH")
    ensures n == 2 <==> EqualsIgnoreCase(token, "$MAP")
  {
    if EqualsIgnoreCase(token, "$ARCHIVEPATH") then 1
    else if EqualsIgnoreCase(token, "$MAP") then 2
    else 0
  }

  /**
   * Directive names are matched without regard to case: two tokens equal up
   * to case consume the same number of arguments.
   */
  lemma DirectiveCaseInsensitive(a: string, b: string)
    requires EqualsIgnoreCase(a, b)
    ensures DirectiveArgs(a) == DirectiveArgs(b)
  {
  }

  /** The name stored for a name token: `?...` stands for "default". */
  function NameFor(token: string): (name: string)
    ensures name == token || name == DefaultName
    ensures |token| > 0 && token[0] == '?' <==> name == DefaultName && name != token
  {
    if |token| > 0 && token[0] == '?' then DefaultName else token
  }

  /**
   * The index of the first entry whose tag name is `tag` (compared case
   * sensitively), or |table| when there is none.
   */
  function FindTag(table: seq<SfxEntry>, tag: string): (k: nat)
    ensures k <= |table|
    ensures k < |table| ==> table[k].tagName == tag
    ensures forall j :: 0 <= j < k ==> table[j].tagName != tag
  {
    if table == [] then 0
    else if table[0].tagName == tag then 0
    else 1 + FindTag(table[1..], tag)
  }

  /** The loader's result: the table reached and whether the stream was well formed. */
  datatype ParseResult = ParseResult(table: seq<SfxEntry>, ok: bool)

  /**
   * The main loop over the token stream. A missing token where
   * SC_MustGetString / SC_MustGetNumber needs one is a fatal script error:
   * loading stops with the table as reached so far.
   */
  function Parse(tokens: seq<string>, table: seq<SfxEntry>): (r: ParseResult)
    ensures |r.table| == |table|
    decreases |tokens|
  {
    if tokens == [] then ParseResult(table, true)
    else if IsDirective(tokens[0]) then
      var skip := DirectiveArgs(tokens[0]);
      if |tokens| - 1 < skip then ParseResult(table, false)
      else Parse(tokens[1 + skip..], table)
    else if |tokens| < 2 then ParseResult(table, false)
    else
      var i := FindTag(table, tokens[0]);
      if i == |table| then Parse(tokens[2..], table)
      else Parse(tokens[2..], table[i := table[i].(name := NameFor(tokens[1]))])
  }

  /**
   * One tag assignment touches only the first entry with that tag: it gets
   * the name token (or "default"), every other entry is unchanged; a tag
   * no entry has changes nothing.
   */
  lemma AssignmentTouchesFirstMatch(table: seq<SfxEntry>, tag: string, nameToken: string, rest: seq<string>)
    requires !IsDirective(tag)
    ensures var i := FindTag(table, tag);
            Parse([tag, nameToken] + rest, table) ==
              if i == |table| then Parse(rest, table)
              else Parse(rest, table[i := SfxEntry(tag, NameFor(nameToken))])
  {
    var tokens := [tag, nameToken] + rest;
    assert tokens[0] == tag && tokens[1] == nameToken && tokens[2..] == rest;
  }

  /**
   * Loading never changes the table's size or tag names, and every name it
   * holds afterwards was there before, is a token of the stream, or is
   * "default".
   */
  lemma {:induction false} ParseOnlyAssignsTokens(tokens: seq<string>, table: seq<SfxEntry>)
    ensures var r := Parse(tokens, table).table;
            |r| == |table|
            && (forall k :: 0 <= k < |r| ==> r[k].tagName == table[k].tagName)
            && (forall k :: 0 <= k < |r| ==>
                  r[k].name == table[k].name || r[k].name == DefaultName || r[k].name in tokens)
    decreases |tokens|
  {
    if tokens == [] {
    } else if IsDirective(tokens[0]) {
      var skip := DirectiveArgs(tokens[0]);
      if |tokens| - 1 >= skip {
        ParseOnlyAssignsTokens(tokens[1 + skip..], table);
        assert forall t :: t in tokens[1 + skip..] ==> t in tokens;
      }
    } else if |tokens| >= 2 {
      var i := FindTag(table, tokens[0]);
      assert forall t :: t in tokens[2..] ==> t in tokens;
      if i == |table| {
        ParseOnlyAssignsTokens(tokens[2..], table);
      } else {
        var t2 := table[i := table[i].(name := NameFor(tokens[1]))];
        ParseOnlyAssignsTokens(tokens[2..], t2);
        assert tokens[1] in tokens;
      }
    }
  }

  /** The closing fix-up of one entry: an empty name becomes "default". */
  function FixName(e: SfxEntry): SfxEntry {
    if e.name == "" then e.(name := DefaultName) else e
  }

  /**
   * The closing fix-up over the table: afterwards no entry has an empty
   * name, every tag and every non-empty name is kept, and an empty name
   * becomes "default".
   */
  function FixNames(table: seq<SfxEntry>): (r: seq<SfxEntry>)
    ensures |r| == |table|
    ensures forall k :: 0 <= k < |r| ==> r[k].name != "" && r[k].tagName == table[k].tagName
    ensures forall k :: 0 <= k < |r| && table[k].name != "" ==> r[k] == table[k]
    ensures forall k :: 0 <= k < |r| && table[k].name == "" ==> r[k].name == DefaultName
  {
    seq(|table|, k requires 0 <= k < |table| => FixName(table[k]))
  }

  /** The fix-up is idempotent: a second fix-up changes nothing. */
  lemma FixNamesMeaning(table: seq<SfxEntry>)
    ensures FixNames(FixNames(table)) == FixNames(table)
  {
  }

  /** The inner search loop: the first entry whose tag is `tag`, or the table size. */
  method FindTagIndex(sfx: array<SfxEntry>, tag: string) returns (i: int)
    ensures i == FindTag(sfx[..], tag)
  {
    i := 0;
    while i < sfx.Length
      invariant 0 <= i <= sfx.Length
      invariant forall j :: 0 <= j < i ==> sfx[j].tagName != tag
    {
      if sfx[i].tagName == tag {
        return;
      }
      i := i + 1;
    }
  }

  /** One step of Parse, read at position pos of the token stream. */
  lemma ParseAt(tokens: seq<string>, pos: nat, table: seq<SfxEntry>)
    requires pos < |tokens|
    ensures var t := tokens[pos];
            Parse(tokens[pos..], table) ==
              if IsDirective(t) then
                if |tokens| - pos - 1 < DirectiveArgs(t) then ParseResult(table, false)
                else Parse(tokens[pos + 1 + DirectiveArgs(t)..], table)
              else if pos + 1 == |tokens| then ParseResult(table, false)
              else
                var i := FindTag(table, t);
                if i == |table| then Parse(tokens[pos + 2..], table)
                else Parse(tokens[pos + 2..], table[i := table[i].(name := NameFor(tokens[pos + 1]))])
  {
    var rest := tokens[pos..];
    assert rest[0] == tokens[pos];
    if IsDirective(tokens[pos]) && |tokens| - pos - 1 >= DirectiveArgs(tokens[pos]) {
      assert rest[1 + DirectiveArgs(tokens[pos])..] == tokens[pos + 1 + DirectiveArgs(tokens[pos])..];
    } else if pos + 1 < |tokens| {
      assert rest[2..] == tokens[pos + 2..];
    }
  }

  /**
   * The token loop of dsda_LoadSndInfo: writes the assigned names into the
   * table in place and reports whether the stream was well formed.
   */
  method ParseTokens(tokens: seq<string>, sfx: array<SfxEntry>) returns (ok: bool)
    modifies sfx
    ensures Parse(tokens, old(sfx[..])) == ParseResult(sfx[..], ok)
  {
    var pos := 0;
    while pos < |tokens|
      invariant 0 <= pos <= |tokens|
      invariant Parse(tokens[pos..], sfx[..]) == Parse(tokens, old(sfx[..]))
      decreases |tokens| - pos
    {
      ParseAt(tokens, pos, sfx[..]);
      var token := tokens[pos];
      pos := pos + 1;
      if IsDirective(token) {
        var skip := DirectiveArgs(token);
        if |tokens| - pos < skip {
          return false;
        }
        pos := pos + skip;
        continue;
      }
      if pos == |tokens| {
        return false;
      }
      var i := FindTagIndex(sfx, token);
      var nameToken := tokens[pos];
      pos := pos + 1;
      if i < sfx.Length {
        sfx[i] := sfx[i].(name := NameFor(nameToken));
      }
    }
    ok := true;
  }

  /** The closing loop: every empty name becomes "default", in place. */
  method FixEmptyNames(sfx: array<SfxEntry>)
    modifies sfx
    ensures sfx[..] == FixNames(old(sfx[..]))
  {
    var i := 0;
    while i < sfx.Length
      invariant 0 <= i <= sfx.Length
      invariant forall k :: 0 <= k < i ==> sfx[k] == FixName(old(sfx[k]))
      invariant forall k :: i <= k < sfx.Length ==> sfx[k] == old(sfx[k])
    {
      if sfx[i].name == "" {
        sfx[i] := sfx[i].(name := DefaultName);
      }
      i := i + 1;
    }
  }

  /**
   * dsda_LoadSndInfo on the SNDINFO lump's tokens. Outside Hexen the table
   * is not touched (the ambient-sound loader runs instead). A fatal script
   * error stops before the fix-up; otherwise the fix-up follows the parse.
   */
  method LoadSndInfo(hexen: bool, tokens: seq<string>, sfx: array<SfxEntry>) returns (ok: bool)
    modifies sfx
    ensures !hexen ==> ok && sfx[..] == old(sfx[..])
    ensures hexen ==> ok == Parse(tokens, old(sfx[..])).ok
    ensures hexen && ok ==> sfx[..] == FixNames(Parse(tokens, old(sfx[..])).table)
    ensures hexen && !ok ==> sfx[..] == Parse(tokens, old(sfx[..])).table
  {
    if !hexen {
      return true;
    }
    ok := ParseTokens(tokens, sfx);
    if ok {
      FixEmptyNames(sfx);
    }
  }

  /** After a successful load no sound effect has an empty name. */
  lemma LoadLeavesNoEmptyName(tokens: seq<string>, table: seq<SfxEntry>)
    ensures forall k :: 0 <= k < |table| ==> FixNames(Parse(tokens, table).table)[k].name != ""
  {
  }
}
