/**
 * The robots.txt route: GET assembles the file from the stored text (or a
 * default), one `Disallow` line per no-index route and the sitemap record;
 * POST stores a new text for administrators.
 */
module Robots {
  import opened Wrappers
  import opened Auth
  import Text
  import Seqs

  /** The text used when none is stored. */
  const DefaultRobots: string := "\n" + "# Default robots.txt" + "\n" + "User-agent: *" + "\n" + "Allow: /" + "\n" +
    "Disallow: /admin/" + "\n" + "Disallow: /dashboard/" + "\n"

  const NoIndexHeader: string := "\n\n# NoIndex Routes\n"
  const DisallowField: string := "Disallow: "
  const LineEnd: string := "\n"
  const SitemapRecord: string := "\nSitemap: https://sajjadakbari.ir/sitemap.xml"

  /** `globalSettings?.robotsTxt || default`. */
  function BaseText(stored: Option<string>): (r: string)
    ensures Truthy(stored) ==> r == stored.value
    ensures !Truthy(stored) ==> r == DefaultRobots
  {
    if Truthy(stored) then stored.value else DefaultRobots
  }

  /** How a template literal prints a path the query returned, which is null when no id is set. */
  function ShowPath(path: Option<string>): string
  {
    if path.Some? then path.value else "null"
  }

  /** The `Disallow` line of one route. */
  function DisallowLine(path: Option<string>): string
  {
    DisallowField + ShowPath(path) + LineEnd
  }

  /**
   * RFC 9309 section 2.2.2: a rule line is the `Disallow:` key, the path and
   * the end of the line; the path starts with `/` whenever the route's does.
   */
  lemma DisallowLineForm(path: Option<string>)
    ensures var r := DisallowLine(path);
      Text.StartsWith(r, "Disallow: ") && r[|r| - 1] == '\n' && r[10..|r| - 1] == ShowPath(path)
    ensures path.None? ==> DisallowLine(path) == "Disallow: null\n"
  {
    var r := DisallowLine(path);
    assert r[..10] == DisallowField;
    assert r[10..|r| - 1] == ShowPath(path);
  }

  /** The lines for the routes, in order. */
  function DisallowLines(paths: seq<Option<string>>): (r: string)
    decreases |paths|
  {
    if paths == [] then "" else DisallowLines(paths[..|paths| - 1]) + DisallowLine(paths[|paths| - 1])
  }

  /** What GET answers. */
  function RobotsText(stored: Option<string>, paths: seq<Option<string>>): string
  {
    (if |paths| > 0 then BaseText(stored) + NoIndexHeader + DisallowLines(paths) else BaseText(stored)) + SitemapRecord
  }

  /** GET: the text is built up with `+=` as the route does. */
  method BuildRobots(stored: Option<string>, paths: seq<Option<string>>) returns (content: string)
    ensures content == RobotsText(stored, paths)
  {
    content := BaseText(stored);
    if |paths| > 0 {
      content := content + NoIndexHeader;
      ghost var head := content;
      var i := 0;
      while i < |paths|
        invariant 0 <= i <= |paths|
        invariant content == head + DisallowLines(paths[..i])
      {
        var line := DisallowLine(paths[i]);
        ghost var done := DisallowLines(paths[..i]);
        LinesSnoc(paths[..i + 1]);
        assert paths[..i + 1][..i] == paths[..i];
        assert DisallowLines(paths[..i + 1]) == done + line;
        Seqs.Associate(head, done, line);
        content := content + line;
        i := i + 1;
      }
      assert paths[..i] == paths;
    }
    content := content + SitemapRecord;
  }

  /** Unfolds the last line of the block. */
  lemma LinesSnoc(paths: seq<Option<string>>)
    requires paths != []
    ensures DisallowLines(paths) == DisallowLines(paths[..|paths| - 1]) + DisallowLine(paths[|paths| - 1])
  {
  }

  /** One line per route, in order: the block of lines splits at any route. */
  lemma {:induction false} DisallowLinesAppend(a: seq<Option<string>>, b: seq<Option<string>>)
    ensures DisallowLines(a + b) == DisallowLines(a) + DisallowLines(b)
    decreases |b|
  {
    if b == [] {
      assert a + b == a;
    } else {
      var b0, last := b[..|b| - 1], b[|b| - 1];
      assert (a + b)[..|a + b| - 1] == a + b0 && (a + b)[|a + b| - 1] == last;
      LinesSnoc(a + b);
      LinesSnoc(b);
      DisallowLinesAppend(a, b0);
      Seqs.Associate(DisallowLines(a), DisallowLines(b0), DisallowLine(last));
    }
  }

  /** The lines are exactly the concatenation of each route's line. */
  lemma {:induction false} DisallowLinesEach(paths: seq<Option<string>>)
    ensures DisallowLines(paths) == Text.Concat(Seqs.Map(paths, DisallowLine))
    decreases |paths|
  {
    if paths != [] {
      var rest := paths[1..];
      DisallowLinesEach(rest);
      DisallowLinesAppend([paths[0]], rest);
      assert [paths[0]] + rest == paths;
      assert DisallowLines([paths[0]]) == DisallowLine(paths[0]) by {
        assert [paths[0]][..0] == [];
      }
      var lines := Seqs.Map(paths, DisallowLine);
      Seqs.MapCons(paths, DisallowLine);
      assert Text.Concat(lines) == lines[0] + Text.Concat(lines[1..]);
    }
  }

  /** The output keeps the base text, adds the header only for routes, and ends with the sitemap record. */
  lemma RobotsTextShape(stored: Option<string>, paths: seq<Option<string>>)
    ensures var t := RobotsText(stored, paths);
      && Text.StartsWith(t, BaseText(stored))
      && |t| >= |SitemapRecord| && t[|t| - |SitemapRecord|..] == SitemapRecord
      && (paths == [] ==> t == BaseText(stored) + SitemapRecord)
      && (paths != [] ==> t == BaseText(stored) + NoIndexHeader + DisallowLines(paths) + SitemapRecord)
  {
    var t := RobotsText(stored, paths);
    assert t[..|BaseText(stored)|] == BaseText(stored);
  }

  /** The store: the single global settings row, keyed by its id. */
  class RobotsStore {
    var rows: map<string, string>

    constructor ()
      ensures rows == map[]
    {
      rows := map[];
    }

    /**
     * The stored text that GET uses. GET reads the first global row whatever its id; the
     * model takes POST's row `1` to be the only global row, which `PostThenGet` relies on.
     */
    function Stored(): Option<string>
      reads this
    {
      if "1" in rows then Some(rows["1"]) else None
    }

    /** POST: administrators only; then at most 5000 characters; then `upsert` of row `1`. */
    method Post(user: Option<User>, content: string) returns (status: nat)
      modifies this
      ensures !IsAdmin(user) ==> status == Forbidden && rows == old(rows)
      ensures IsAdmin(user) && |content| > 5000 ==> status == BadRequest && rows == old(rows)
      ensures IsAdmin(user) && |content| <= 5000 ==> status == 200 && rows == old(rows)["1" := content]
    {
      if !IsAdmin(user) {
        return Forbidden;
      }
      if |content| > 5000 {
        return BadRequest;
      }
      rows := rows["1" := content];
      return 200;
    }
  }

  /** After an accepted POST, GET serves the posted text (the default when it is empty). */
  method PostThenGet(store: RobotsStore, admin: User, content: string, paths: seq<Option<string>>) returns (text: string)
    requires admin.isAdmin && |content| <= 5000
    modifies store
    ensures text == RobotsText(Some(content), paths)
  {
    var status := store.Post(Some(admin), content);
    assert store.Stored() == Some(content);
    text := BuildRobots(store.Stored(), paths);
  }
}
