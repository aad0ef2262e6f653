/** The two small request-level pieces of the server: choosing the game state
    a request works on (`resolveGameState`, server.js:289-296) and merging a
    quiz result into it (the `/init-profile` handler, server.js:400-407). */
module Reconcile {
  import opened GameData
  import Catalog
  import Award

  /** What `resolveGameState` reads of a request body: its `gameState`
      member, and the body itself taken as a state. `express.json` always
      yields an object, so `own` is never `Absent` in practice. */
  datatype RequestBody = RequestBody(gameState: Candidate, own: Candidate)

  /** A candidate that holds a player is used as it is; anything else is
      replaced by a copy of the default document. */
  function StateOf(c: Candidate, boot: Clock): Document {
    match c
    case WithPlayer(d) => d
    case _ => Catalog.DefaultDocument(boot)
  }

  /** `resolveGameState`: `body.gameState || body`, then the default when
      that has no player. A `gameState` member without a player is not
      backed by the body: the default is used even if the body has one. */
  function ResolveGameState(body: RequestBody, boot: Clock): (d: Document)
    ensures body.gameState.WithPlayer? ==> d == body.gameState.doc
    ensures body.gameState.Absent? && body.own.WithPlayer? ==> d == body.own.doc
    ensures body.gameState.WithoutPlayer? || (body.gameState.Absent? && !body.own.WithPlayer?) ==>
      d == Catalog.DefaultDocument(boot)
  {
    StateOf(if body.gameState.Absent? then body.own else body.gameState, boot)
  }

  /** A client that sends back the state it received gets the same state:
      resolving is the identity on every resolved state. */
  lemma ResolveRoundTrip(body: RequestBody, own: Candidate, boot: Clock, boot2: Clock)
    ensures var d := ResolveGameState(body, boot);
      ResolveGameState(RequestBody(WithPlayer(d), own), boot2) == d
  {
  }

  /** A request either brings a state with a player or gets the well-formed default. */
  lemma ResolvedIsWellFormed(body: RequestBody, boot: Clock)
    requires body.gameState.WithPlayer? ==> Award.WellFormed(body.gameState.doc)
    requires body.own.WithPlayer? ==> Award.WellFormed(body.own.doc)
    ensures Award.WellFormed(ResolveGameState(body, boot))
  {
    Award.DefaultWellFormed(boot);
  }

  /** The `stats` member of an `/init-profile` request: the five quiz scores. */
  datatype ProfileScores = ProfileScores(creativity: int, productivity: int, energy: int, kindness: int, awareness: int)

  /** The profile merge of `/init-profile`. Writing the scores into a
      document without a stats block throws, which the server answers with
      an error: that is `None`. A personality type is stored only when it is
      a non-empty string. */
  function MergeProfile(d: Document, stats: Option<ProfileScores>, personalityType: Option<string>): (r: Option<Document>)
    ensures r.None? <==> stats.Some? && d.player.stats.None?
    ensures r.Some? ==> r.value == d.(player := r.value.player)
    ensures r.Some? ==> r.value.player == d.player.(stats := r.value.player.stats, personalityType := r.value.player.personalityType)
    ensures r.Some? && stats.Some? ==>
      && r.value.player.stats.Some?
      && var s, t := d.player.stats.value, r.value.player.stats.value;
      t == s.(creativity := Some(stats.value.creativity), productivity := stats.value.productivity,
              energy := stats.value.energy, kindness := Some(stats.value.kindness),
              awareness := Some(stats.value.awareness))
    ensures r.Some? && stats.None? ==> r.value.player.stats == d.player.stats
    ensures r.Some? ==>
      r.value.player.personalityType ==
        if personalityType.Some? && personalityType.value != "" then personalityType else d.player.personalityType
  {
    if stats.Some? && d.player.stats.None? then None
    else
      var p := d.player;
      var p1 := if stats.Some? then
          var s, q := p.stats.value, stats.value;
          p.(stats := Some(s.(creativity := Some(q.creativity), productivity := q.productivity,
                              energy := q.energy, kindness := Some(q.kindness), awareness := Some(q.awareness))))
        else p;
      var p2 := if personalityType.Some? && personalityType.value != "" then p1.(personalityType := personalityType) else p1;
      Some(d.(player := p2))
  }

  /** The merge leaves health, XP, level, title, streak, badges, statistics
      and the quests alone, so it keeps the engine's invariant. */
  lemma MergeKeepsWellFormed(d: Document, stats: Option<ProfileScores>, personalityType: Option<string>)
    requires Award.WellFormed(d)
    ensures var r := MergeProfile(d, stats, personalityType);
      r.Some? && Award.WellFormed(r.value)
  {
  }

  /** Merging the same profile a second time changes nothing more. */
  lemma MergeIdempotent(d: Document, stats: Option<ProfileScores>, personalityType: Option<string>)
    requires MergeProfile(d, stats, personalityType).Some?
    ensures var once := MergeProfile(d, stats, personalityType).value;
      MergeProfile(once, stats, personalityType) == Some(once)
  {
  }
}
