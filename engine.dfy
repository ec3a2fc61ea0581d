/**
 * The game engine: one `Maidle` object holds the catalog, the version table
 * and, per chat group, the running game. `Command` is the `/maidle` command
 * handler: help, start, end, or a guess.
 */
module Engine {
  import opened Wrappers
  import opened Songs
  import opened Catalog
  import opened Charts
  import opened Marks

  /** Every game starts with this many tries. */
  const MaxTries := 10

  /** A running game: the secret target song and the tries left. */
  datatype Game = Game(target: Song, tries: int)

  /** The eight marks shown after a guess, one per compared field. */
  datatype Feedback = Feedback(
    title: Mark, chartTypes: Mark, artist: Mark, genre: Mark,
    version: Mark, bpm: Mark, designer: Mark, level: Mark)

  const AllEqual := Feedback(Equal, Equal, Equal, Equal, Equal, Equal, Equal, Equal)

  /** The guessed song's values shown beside the marks. */
  datatype Card = Card(
    title: string, chartTypes: string, artist: Option<string>, genre: Option<string>,
    version: EraTitle, bpm: Scalar, designer: Option<string>, level: Option<real>)

  /** The target's details revealed by `end`. */
  datatype TargetInfo = TargetInfo(
    title: string, id: SongId, artist: Option<string>, genre: Option<string>,
    version: EraTitle, bpm: Scalar, designer: Option<string>, level: Option<real>)

  /** How a resolved guess leaves the game: still running, won, or lost with the answer shown. */
  datatype Outcome = Continue | Won | OutOfTries(answer: string)

  /** What the command handler answers. Message wording is not modelled, only which message. */
  datatype Reply =
    | Usage
    | AlreadyRunning
    | CatalogEmpty
    | Started(tries: int)
    | NothingToEnd
    | Answer(info: TargetInfo)
    | StartFirst
    | NotFound
    | Verdict(remaining: int, guess: Card, feedback: Feedback, outcome: Outcome)

  /** `.get('note_designer')` of a representative chart; an empty chart gives None. */
  function Designer(h: Option<TaggedChart>): Option<string>
  {
    if h.Some? then h.value.chart.noteDesigner else None
  }

  /** `.get('level_value')` of a representative chart; an empty chart gives None. */
  function Level(h: Option<TaggedChart>): Option<real>
  {
    if h.Some? then h.value.chart.levelValue else None
  }

  /**
   * The marks of a guess against the target, field by field. Title, artist
   * and genre are Equal exactly when the values agree; chart types and note
   * designer are only ever Equal or Mismatch; a song compared with itself
   * is Equal on every field.
   */
  function Compare(guess: Song, target: Song): (f: Feedback)
    ensures guess == target ==> f == AllEqual
    ensures f.title == Equal <==> guess.title == target.title
    ensures f.artist == Equal <==> guess.artist == target.artist
    ensures f.genre == Equal <==> guess.genre == target.genre
    ensures f.chartTypes == Equal || f.chartTypes == Mismatch
    ensures f.designer == Equal || f.designer == Mismatch
  {
    var hGuess := Representative(Flatten(guess.difficulties));
    var hTarget := Representative(Flatten(target.difficulties));
    MarksAreReflexive(guess.version, Level(hGuess));
    MarksAreReflexive(guess.bpm, Level(hGuess));
    Feedback(
      CmpMark(guess.title, target.title),
      CmpMark(Join(Codes(guess.difficulties), "/"), Join(Codes(target.difficulties), "/")),
      CmpMark(guess.artist, target.artist),
      CmpMark(guess.genre, target.genre),
      VerMark(guess.version, target.version),
      BpmMark(guess.bpm, target.bpm),
      CmpMark(Designer(hGuess), Designer(hTarget)),
      LvlMark(Level(hGuess), Level(hTarget)))
  }

  /**
   * The chart-type and designer marks are Equal exactly when the shown
   * signatures, and the representative charts' designers, agree.
   */
  lemma CompareChartMarks(guess: Song, target: Song)
    ensures Compare(guess, target).chartTypes == Equal <==>
      Join(Codes(guess.difficulties), "/") == Join(Codes(target.difficulties), "/")
    ensures Compare(guess, target).designer == Equal <==>
      Designer(Representative(Flatten(guess.difficulties))) == Designer(Representative(Flatten(target.difficulties)))
  {
  }

  /**
   * The values shown for a guessed song. The chart-type signature is empty
   * exactly when the song has no chart, and then no designer or level is shown.
   */
  function CardOf(verMap: map<int, Option<string>>, s: Song): (c: Card)
    ensures c.chartTypes == "" <==> forall k :: 0 <= k < |s.difficulties| ==> |s.difficulties[k].charts| == 0
    ensures c.chartTypes == "" ==> c.designer.None? && c.level.None?
  {
    var h := Representative(Flatten(s.difficulties));
    SignatureEmptyIffNoChart(s.difficulties);
    Card(s.title, Join(Codes(s.difficulties), "/"), s.artist, s.genre,
         VerTitle(verMap, s.version), s.bpm, Designer(h), Level(h))
  }

  /**
   * The details revealed for the target. A song without charts shows no
   * designer or level; a shown designer or level belongs to one of the
   * song's charts of the highest difficulty tier.
   */
  function TargetInfoOf(verMap: map<int, Option<string>>, s: Song): (t: TargetInfo)
    ensures (forall k :: 0 <= k < |s.difficulties| ==> |s.difficulties[k].charts| == 0) ==> t.designer.None? && t.level.None?
    ensures t.designer.Some? || t.level.Some? ==>
      exists c :: c in Flatten(s.difficulties)
        && t.designer == c.chart.noteDesigner && t.level == c.chart.levelValue
        && forall u :: u in Flatten(s.difficulties) ==> DiffRank(u) <= DiffRank(c)
  {
    var h := Representative(Flatten(s.difficulties));
    TargetInfo(s.title, s.id, s.artist, s.genre, VerTitle(verMap, s.version), s.bpm, Designer(h), Level(h))
  }

  /**
   * In a catalog whose ids are distinct, a guess that resolves to a song
   * with the target's id resolved to the target itself,
   * so every mark of a winning guess is Equal.
   */
  lemma CorrectGuessAllEqual(songs: seq<Song>, target: Song, text: string)
    requires DistinctIds(songs) && target in songs
    requires FirstMatch(songs, text).Some? && FirstMatch(songs, text).value.id == target.id
    ensures FirstMatch(songs, text).value == target
    ensures Compare(FirstMatch(songs, text).value, target) == AllEqual
  {
    var guess := FirstMatch(songs, text).value;
    var k :| 0 <= k < |songs| && songs[k] == guess && Matches(songs[k], text);
    var j :| 0 <= j < |songs| && songs[j] == target;
  }

  /** Any text other than the three command words is a guess. */
  predicate IsGuess(content: string)
  {
    content != "help" && content != "start" && content != "end"
  }

  /** Every running game has between 1 and MaxTries tries left and a target from the catalog. */
  ghost predicate Live(games: map<string, Game>, songs: seq<Song>)
  {
    forall g :: g in games ==> 1 <= games[g].tries <= MaxTries && games[g].target in songs
  }

  /** The tries left after a resolved guess and how the game goes on. */
  datatype Settled = Settled(left: int, outcome: Outcome)

  /**
   * How a resolved guess leaves its game: the right song wins with the
   * tries unchanged; a wrong one costs a try, and the game is lost,
   * revealing the target's title, once no try is left.
   */
  function Settle(game: Game, guess: Song): (s: Settled)
    ensures s.outcome == Won <==> guess.id == game.target.id
    ensures s.outcome == Won ==> s.left == game.tries
    ensures s.outcome != Won ==> s.left == game.tries - 1
    ensures s.outcome == Continue <==> s.outcome != Won && s.left >= 1
    ensures s.outcome.OutOfTries? ==> s.outcome.answer == game.target.title
  {
    var correct := guess.id == game.target.id;
    var left := if correct then game.tries else game.tries - 1;
    Settled(left, if correct then Won else if left <= 0 then OutOfTries(game.target.title) else Continue)
  }

  /** The answer to one command and the table of running games after it. */
  datatype Transition = Transition(reply: Reply, games: map<string, Game>)

  /**
   * A guess: unknown text costs nothing; a wrong song costs one try; the
   * right song, or the last try, ends the game. No game is opened, other
   * groups' games are untouched, a game that stays keeps its target and
   * loses at most one try but never its last, and a game is closed only
   * with a verdict that ends it.
   */
  function GuessStep(games: map<string, Game>, songs: seq<Song>, verMap: map<int, Option<string>>,
                     group: string, content: string): (r: Transition)
    ensures r.games.Keys <= games.Keys
    ensures forall g :: g in games && g != group ==> g in r.games && r.games[g] == games[g]
    ensures group in r.games ==>
      || r.games[group] == games[group]
      || (r.games[group] == Game(games[group].target, games[group].tries - 1) && r.games[group].tries >= 1
          && r.reply.Verdict? && r.reply.outcome == Continue)
    ensures group in games && group !in r.games ==> r.reply.Verdict? && r.reply.outcome != Continue
    ensures r.reply.Verdict? <==> group in games && FirstMatch(songs, content).Some?
  {
    if group !in games then Transition(StartFirst, games)
    else match FirstMatch(songs, content)
      case None => Transition(NotFound, games)
      case Some(guess) =>
        var game := games[group];
        var settled := Settle(game, guess);
        var reply := Verdict(settled.left, CardOf(verMap, guess), Compare(guess, game.target), settled.outcome);
        if settled.outcome == Continue then Transition(reply, games[group := Game(game.target, settled.left)])
        else Transition(reply, games - {group})
  }

  /**
   * One `/maidle` command from `group`: help, start (with `pick` the index the
   * random choice yields), end, or a guess.
   */
  function Step(games: map<string, Game>, songs: seq<Song>, verMap: map<int, Option<string>>,
                group: string, content: string, pick: nat): (r: Transition)
    requires |songs| > 0 ==> pick < |songs|
    ensures forall g :: g != group ==> (g in r.games <==> g in games) && (g in games ==> r.games[g] == games[g])
    ensures Live(games, songs) ==> Live(r.games, songs)
  {
    if content == "help" then Transition(Usage, games)
    else if content == "start" then
      if group in games then Transition(AlreadyRunning, games)
      else if |songs| == 0 then Transition(CatalogEmpty, games)
      else Transition(Started(MaxTries), games[group := Game(songs[pick], MaxTries)])
    else if content == "end" then
      if group !in games then Transition(NothingToEnd, games)
      else Transition(Answer(TargetInfoOf(verMap, games[group].target)), games - {group})
    else GuessStep(games, songs, verMap, group, content)
  }

  /** Help is answered the same way in every state and changes nothing. */
  lemma HelpChangesNothing(games: map<string, Game>, songs: seq<Song>, verMap: map<int, Option<string>>, group: string, pick: nat)
    requires |songs| > 0 ==> pick < |songs|
    ensures Step(games, songs, verMap, group, "help", pick) == Transition(Usage, games)
  {
  }

  /**
   * Start refuses while the group has a game and when the catalog is empty,
   * changing nothing; otherwise it opens a game on a catalog song with all tries.
   */
  lemma StartOpensOneGame(games: map<string, Game>, songs: seq<Song>, verMap: map<int, Option<string>>, group: string, pick: nat)
    requires |songs| > 0 ==> pick < |songs|
    ensures var t := Step(games, songs, verMap, group, "start", pick);
      && (group in games ==> t == Transition(AlreadyRunning, games))
      && (group !in games && |songs| == 0 ==> t == Transition(CatalogEmpty, games))
      && (group !in games && |songs| > 0 ==>
            t.reply == Started(MaxTries) && t.games.Keys == games.Keys + {group}
            && t.games[group].target in songs && t.games[group].tries == MaxTries
            && forall g :: g in games ==> t.games[g] == games[g])
  {
  }

  /** End with no game changes nothing; with a game it reveals the target and removes exactly that game. */
  lemma EndRemovesOneGame(games: map<string, Game>, songs: seq<Song>, verMap: map<int, Option<string>>, group: string, pick: nat)
    requires |songs| > 0 ==> pick < |songs|
    ensures var t := Step(games, songs, verMap, group, "end", pick);
      && (group !in games ==> t == Transition(NothingToEnd, games))
      && (group in games ==>
            t.reply == Answer(TargetInfoOf(verMap, games[group].target))
            && t.games.Keys == games.Keys - {group}
            && forall g :: g in t.games ==> t.games[g] == games[g])
  {
  }

  /** A guess without a game, or one that names no song, changes nothing: no try is spent. */
  lemma UnresolvedGuessIsFree(games: map<string, Game>, songs: seq<Song>, verMap: map<int, Option<string>>, group: string, content: string, pick: nat)
    requires |songs| > 0 ==> pick < |songs|
    requires IsGuess(content)
    requires group !in games || FirstMatch(songs, content).None?
    ensures Step(games, songs, verMap, group, content, pick).games == games
    ensures Step(games, songs, verMap, group, content, pick).reply == if group in games then NotFound else StartFirst
  {
  }

  /**
   * A guess that resolves to a song other than the target costs exactly one
   * try; the game goes on while a try is left and ends, revealing the answer,
   * when none is. No other group's game changes.
   */
  lemma WrongGuessCostsOneTry(games: map<string, Game>, songs: seq<Song>, verMap: map<int, Option<string>>, group: string, content: string, pick: nat)
    requires |songs| > 0 ==> pick < |songs|
    requires IsGuess(content) && group in games
    requires FirstMatch(songs, content).Some? && FirstMatch(songs, content).value.id != games[group].target.id
    ensures var t, game := Step(games, songs, verMap, group, content, pick), games[group];
      && t.reply.Verdict? && t.reply.remaining == game.tries - 1
      && (game.tries > 1 ==> t.reply.outcome == Continue && t.games == games[group := Game(game.target, game.tries - 1)])
      && (game.tries <= 1 ==> t.reply.outcome == OutOfTries(game.target.title) && t.games == games - {group})
  {
  }

  /** A guess that resolves to a song with the target's id ends the game as won, whatever tries are left. */
  lemma CorrectGuessEndsGame(games: map<string, Game>, songs: seq<Song>, verMap: map<int, Option<string>>, group: string, content: string, pick: nat)
    requires |songs| > 0 ==> pick < |songs|
    requires IsGuess(content) && group in games
    requires FirstMatch(songs, content).Some? && FirstMatch(songs, content).value.id == games[group].target.id
    ensures var t := Step(games, songs, verMap, group, content, pick);
      && t.reply.Verdict? && t.reply.outcome == Won && t.reply.remaining == games[group].tries
      && t.games == games - {group}
  {
  }

  /** The result lines of a guess: the marks against the target and the guessed song's shown values. */
  method Lines(verMap: map<int, Option<string>>, guess: Song, target: Song) returns (feedback: Feedback, card: Card)
    ensures feedback == Compare(guess, target)
    ensures card == CardOf(verMap, guess)
  {
    var hGuess := SelectSurface(guess);
    var hTarget := SelectSurface(target);
    var typesGuess := TypeSignature(guess.difficulties);
    var typesTarget := TypeSignature(target.difficulties);
    feedback := Feedback(
      CmpMark(guess.title, target.title),
      CmpMark(typesGuess, typesTarget),
      CmpMark(guess.artist, target.artist),
      CmpMark(guess.genre, target.genre),
      VerMark(guess.version, target.version),
      BpmMark(guess.bpm, target.bpm),
      CmpMark(Designer(hGuess), Designer(hTarget)),
      LvlMark(Level(hGuess), Level(hTarget)));
    card := Card(guess.title, typesGuess, guess.artist, guess.genre,
                     VerTitle(verMap, guess.version), guess.bpm, Designer(hGuess), Level(hGuess));
  }

  class Maidle {
    const songs: seq<Song>
    const verMap: map<int, Option<string>>
    /** The running game of each group; a group without a game has no entry. */
    var games: map<string, Game>

    ghost predicate Valid()
      reads this
    {
      Live(games, songs)
    }

    /** Takes the loaded catalog: the songs and the `versions` list. */
    constructor (songs: seq<Song>, versions: seq<VersionEntry>)
      ensures this.songs == songs && verMap == VersionMap(versions)
      ensures games == map[] && Valid()
    {
      this.songs := songs;
      verMap := VersionMap(versions);
      games := map[];
    }

    /**
     * The `/maidle` command from `group` with argument `content`. `pick` is
     * the index that the random choice of a target yields.
     */
    method Command(group: string, content: string, pick: nat) returns (reply: Reply)
      requires Valid()
      requires |songs| > 0 ==> pick < |songs|
      modifies this
      ensures Valid()
      ensures Transition(reply, games) == Step(old(games), songs, verMap, group, content, pick)
    {
      if content == "help" {
        return Usage;
      }

      if content == "start" {
        if group in games {
          return AlreadyRunning;
        }
        if |songs| == 0 {
          return CatalogEmpty;
        }
        games := games[group := Game(songs[pick], MaxTries)];
        return Started(MaxTries);
      }

      if content == "end" {
        if group !in games {
          return NothingToEnd;
        }
        var target := games[group].target;
        var hTarget := SelectSurface(target);
        var info := TargetInfo(target.title, target.id, target.artist, target.genre,
                           VerTitle(verMap, target.version), target.bpm, Designer(hTarget), Level(hTarget));
        games := games - {group};
        return Answer(info);
      }

      reply := Guess(group, content);
    }

    /** A guess from `group`: resolve it, mark it against the target, and count the try. */
    method Guess(group: string, content: string) returns (reply: Reply)
      modifies this
      ensures Transition(reply, games) == GuessStep(old(games), songs, verMap, group, content)
    {
      if group !in games {
        return StartFirst;
      }
      var found := Resolve(songs, content);
      if found.None? {
        return NotFound;
      }
      var guess := found.value;
      var game := games[group];
      var target := game.target;

      var feedback, card := Lines(verMap, guess, target);

      var settled := Settle(game, guess);
      if settled.outcome == Continue {
        games := games[group := Game(target, settled.left)];
      } else {
        games := games - {group};
      }
      reply := Verdict(settled.left, card, feedback, settled.outcome);
    }
  }

  /**
   * A one-song catalog: start picks that song, and guessing its id wins at
   * once with every mark Equal and closes the game.
   */
  method OneSongRound()
  {
    var alpha := Song(Num(1), "Alpha", [], None, None, Int(100), Int(150),
                      [ChartGroup("standard", [Chart(Some(3), Some(13.5), None)])]);
    var m := new Maidle([alpha], []);
    var r := m.Command("g", "start", 0);
    assert r == Started(10) && m.games["g"] == Game(alpha, 10);
    assert FirstMatch([alpha], "1") == Some(alpha);
    r := m.Command("g", "1", 0);
    assert r.Verdict? && r.outcome == Won && r.feedback == AllEqual;
    assert "g" !in m.games;
  }

  /** Ten guesses that name no song leave all ten tries and the game running. */
  method UnknownGuessesAreFree(songs: seq<Song>)
    requires |songs| > 0 && forall k :: 0 <= k < |songs| ==> !Matches(songs[k], "nothing")
  {
    var m := new Maidle(songs, []);
    var r := m.Command("g", "start", 0);
    var n := 0;
    while n < 10
      invariant m.Valid() && m.songs == songs
      invariant "g" in m.games && m.games["g"].tries == MaxTries
    {
      r := m.Command("g", "nothing", 0);
      n := n + 1;
    }
  }
}
