# Models and proofs for Tournamental

This project models four parts of the Tournamental code base in Dafny and proves what they promise.

1. **The match simulator and its stream** (`apps/mock-producer`). `MatchEngine.Match` is the 10 Hz state machine as a class
   with the fields and methods of `runSimulation`; `MatchEngine.RunSimulation` runs it. Randomness is an arbitrary oracle of
   draws, so every claim holds for every seed. A ghost reader (`MatchStream.Read`) follows the stream and keeps a book: stage
   of the match, order of times, tallies, legality. `Rules` says for every phase how the state a tick finds, the draws it makes,
   the state it leaves and the events it tells hang together; each method is proved to follow its rule, with the number of
   draws it makes. `Trace` strings the rules together over a run, with the stream as what the trace tells, and `Runs` proves what
   holds of every run. `Chunks` cuts the stream into files, `Broadcast` sends it to clients that come and go, `Validator` is the
   structural validator on untyped values, `Schema` the message formats as a table that it is proved to check, and
   `CheckedStream` puts a whole run through it.
2. **The clip pipeline** (`apps/clip-pipeline`). `Highlights` merges event windows, `CanonicalJson` and `ClipId` print and hash
   requests, `ClipText` says how the printed text is spelled, `ClipQueue` is the single-runner render queue as steps between its awaits.
3. **Limiters and identities** (`apps/auth-sms`). `RateTable` is the shared counter table, `RequestLimiter`, `Lockout` and
   `WaThrottle` are its three users, `Limits` runs them together against a call log, `Identity` is the user and session store.
4. **Bookmaker arithmetic** (`apps/odds-ingest`). `Odds` strips the overround and takes medians.

Shared helpers: `Options`, `Numerics` (random draws, clamp, rounding), `Pitch` (geometry), `Squad` (who is on the pitch),
`Simulation` (the simulator's data and laws), `Sorting` (a stable sort and when two sorts agree).

Where the code changes state, the model is a class. Its methods are proved equal to a step function (`ClipQueue.Next`,
`Identity.Apply`, `Limits.Next`, `WaThrottle.Next`, `Odds.Consensus`) or to explicit laws, and the lemmas about every run are
proved about those. Assumptions appear as preconditions: `Maths.Lawful` (the square root squares back, cos² + sin² = 1),
`Pitch.Polar` (cosine and sine of a vector's angle are its coordinates over its length; only where running at a point is meant),
`Config.Playable` (rosters: non-empty distinct player ids, distinct team ids, a goalkeeper and an outfielder in each starting
eleven), `Numerals.Lawful` (numbers are read back from what is written; proved for whole numbers in `ClipId.WholeNumbersLawful`).

That a refused statement changes nothing is how `Identity.Apply` models the database, not a result;
`Identity.RefusedChangesNothing` checks that every branch does so.

Verify everything with `dafny verify dfyconfig.toml`.

## Where the code and its documentation differ

- `apps/clip-pipeline/src/queue.ts:83-101`: if `ffmpeg.run` rejected, jobs behind the current one would stay queued with no
  runner until a new clip is submitted. `ClipQueue.StrandedExactly` says exactly when work is stranded, and
  `ClipQueue.RejectionStrandsWork` gives a run. The shipped runner only resolves (`apps/clip-pipeline/src/ffmpeg.ts:197-208`).
- `apps/auth-sms/src/wa-throttle.ts:18-28`: one might expect at most the threshold plus the other workers per hour. That holds
  exactly when there are no more workers than the threshold (`WaThrottle.ThresholdBoundExactly`): checks left over from the hour
  before can be recorded before the cool-down ends in the same hour. In general the larger of the two numbers takes the
  threshold's place (`WaThrottle.SendsPerHour`).
- `apps/auth-sms/src/routes/inbound-login.ts:218` records sends without a check; such sends are outside the protocol bounded here.
- Windows called rolling in comments (`apps/auth-sms/src/lockout.ts:21-22`, `apps/auth-sms/src/wa-throttle.ts:19-20`) are aligned.
- Pruning is harmless to the counters exactly for windows of at most 7201 seconds (`Limits.PruningHarmlessExactly`).
- `apps/odds-ingest/src/normalise.ts:206`: the books are expected to have one outcome ordering; the result is independent of the
  order of the books exactly when they have equal lengths (`Odds.OrderFreeExactlyWhenAligned`).
- `apps/auth-sms/src/storage.ts:795-808`: a returning Telegram user without a phone who brings somebody else's phone hits the
  unique index (`Identity.ReturningTelegramUserRefused`; `Identity.ReturnWithForeignPhone` is such a run).
- `apps/mock-producer/src/simulation.ts:17-20` has every event type come at least once in a default match. The code forces three
  of them (`Runs.CoverageForced`); with draws of 0.05 and more there is no pass, shot, goal or save (`Runs.QuietMatch`).
- `apps/mock-producer/src/simulation.ts:540-571`: a substitution can take off the ball's carrier, and a man taken off may come
  back (`Trace.SubstitutionAftermath`).

## Model

| member | source | states |
|---|---|---|
| MatchEngine.RunSimulation | apps/mock-producer/src/simulation.ts:170-961 | For every oracle and duration there is a lawful trace with one entry per tick, starting from the kickoff of the side the third draw names, and the stream is the opening message, what the trace tells tick by tick with one frame each, and the final whistle. In every tick play has been seen within 65 ticks, nobody moves more than 0.7 m but those repositioned, the ball is over the field, what is tried in play is what the dice say, and an arriving shot is told as its two dice said, goals coming from nothing else. Init first; every frame shows all starters' worth of players; times never fall, events precede the frame of their time, frames on the 100 ms grid, floor(d/100)+1 of them; period events and kickoffs bracketed for d <= 1 or d >= 100 and only then; every message legal; each goal settled by one score change with the right counts; shots = goals + saves + wides + one in flight at its end + one when half-time was called on a shot in flight |
| Runs.OneStreamPerSeed | apps/mock-producer/src/simulation.ts:170-961 | Same teams, duration and draws, same stream, trace and scene: the laws of a run leave nothing open |
| Rules.OneOutcome | apps/mock-producer/src/simulation.ts:831-901 | The state a tick finds and the draws decide what it leaves and tells |
| Runs.EveryRun | apps/mock-producer/src/simulation.ts:797-937 | Every tick of every run keeps the laws named for RunSimulation |
| Runs.ShotsDecidedByDice | apps/mock-producer/src/simulation.ts:416-755 | In every run a shot that arrives was taken in an earlier tick and has flown since; it is told as a goal with its score change when the die after the shot die was below 0.55 and the next below 5/11, as a save when only the first was, and as a miss otherwise |
| Runs.GoalsExactly | apps/mock-producer/src/simulation.ts:690-713 | A tick tells a goal exactly when a shot arrives in it whose both dice said yes |
| Runs.PlayIsDiced | apps/mock-producer/src/simulation.ts:881-901 | In every tick in play: shot from beyond the 25 m line below 0.0022, tackle below 0.012, foul below 0.0035, out below 0.0035, pass below 0.05, tried in this order; who the event names, how a tackle ends, how hard a foul is and what an out is restarted with by their own dice, and the phase and carrier it leaves; nothing is told exactly when the dice or the distances said no |
| Runs.BallStaysOverField | apps/mock-producer/src/simulation.ts:641-755 | In every frame of every run the ball is between the goal lines, within 33 m of the middle and at most 5.1 m high, and so is every flight |
| Runs.CoverageForced | apps/mock-producer/src/simulation.ts:903-927 | Every match of more than 5200 ms shows a tackle, a foul and a ball out of play, however the dice fall |
| Runs.QuietMatch | apps/mock-producer/src/simulation.ts:881-901 | A match no draw of which is below 0.05 has no pass, shot, goal or save |
| Runs.FramesShowTrace | apps/mock-producer/src/simulation.ts:757-780 | The k-th frame of the stream shows the state at the end of tick k |
| Runs.RunShows | apps/mock-producer/src/simulation.ts:757-780 | The stream starts with the opening message and every frame shows the squads, everybody in the box |
| MatchEngine.Match.constructor | apps/mock-producer/src/simulation.ts:170-300 | The line-up from the rosters, the blank book, the init message and one draw for a phase that the kickoff overrides |
| MatchEngine.Match.Tick | apps/mock-producer/src/simulation.ts:797-937 | One turn follows the laws of a turn from the state it finds, keeps possession coherent, squads conserved, players in bounds and the book right, sends exactly what it told and one frame of the new state, and cuts a shot off exactly by half-time |
| MatchEngine.Match.Act | apps/mock-producer/src/simulation.ts:797-927 | Half-time, the substitutions due, the phase and the forced events follow the laws of a turn and send nothing |
| MatchEngine.Match.HalfTime | apps/mock-producer/src/simulation.ts:798-822 | The four events in order, then the other side kicks off, moving the stage on; a shot in flight, and only that, is counted as cut off |
| MatchEngine.Match.Open | apps/mock-producer/src/simulation.ts:786-797 | The opening announcement and the kickoff of the side the third draw names establish the invariant at time zero |
| MatchEngine.Match.Close | apps/mock-producer/src/simulation.ts:939-955 | Sends exactly the final whistle and the match end |
| MatchEngine.Match.FlushEventsThrough | apps/mock-producer/src/simulation.ts:264-276 | Sends the due events in order and keeps exactly the others, in order |
| MatchEngine.Match.NearestOpponentTo | apps/mock-producer/src/simulation.ts:322-335 | The first of the outfield opponents on the pitch at the least distance |
| MatchEngine.Match.TryTackle | apps/mock-producer/src/simulation.ts:461-479 | Tried exactly when the nearest opponent is within 2.5 m; succeeds exactly when the next draw is below 0.55, and then he has the ball and his side possession and the other man falls; the event names both men and the outcome |
| MatchEngine.Match.TryFoul | apps/mock-producer/src/simulation.ts:481-511 | Given exactly when the nearest opponent is within 3 m: soft below 0.7, yellow below 0.97, else red, with the card marked and told unless soft; a free kick of the fouled side, whose carrier keeps the ball |
| MatchEngine.Match.TryOutOfBounds | apps/mock-producer/src/simulation.ts:513-538 | A throw-in below 0.6, else by a second draw a corner or a goal kick, told with its line, goes to the other side; the ball stays where it is |
| MatchEngine.Match.TryPass | apps/mock-producer/src/simulation.ts:380-414 | Made exactly when there is a team-mate on the pitch: to one of the three best placed by thirds of the draw, with 60 ms per metre clamped to 500 to 1500, or, when none is in range, to any with 600 ms; the ball is freed and the event names both men |
| Rules.RankedTargets | apps/mock-producer/src/simulation.ts:383-389 | The team-mates more than 4 m and less than 35 m away, those nearest to 14 m first, ties by order |
| Rules.PassAmongBest | apps/mock-producer/src/simulation.ts:383-391 | When anybody is in range the receiver is, and none, at most one or at most two in range are better placed, by thirds of the draw |
| MatchEngine.Match.TryShot | apps/mock-producer/src/simulation.ts:416-459 | Taken exactly within 35 m of the goal: 30 ms per metre clamped to 600 to 1500, outcome and aim by its four draws, faced by the first goalkeeper of the other side; frees the ball and is tallied once |
| MatchEngine.Match.RollShot | apps/mock-producer/src/simulation.ts:422-431 | On target exactly when the first draw is below 0.55, a goal exactly when also the next is below 5/11; on target within 3 m of the middle at 0.4 to 2.4 m height by the next two, else 6 m to the side a coin names; four draws in any case |
| MatchEngine.Match.TrySubstitution | apps/mock-producer/src/simulation.ts:540-571 | The most tired outfielder goes off, the first benched outfielder comes on in his place and it is told; nothing for an empty bench |
| Trace.SubstitutionAftermath | apps/mock-producer/src/simulation.ts:540-571 | A substitution takes the ball's carrier, or anybody on the pitch, off exactly when the bench is not empty and he is the most tired outfielder; whoever goes off is back on the bench |
| Trace.SubstitutionMeans | apps/mock-producer/src/simulation.ts:540-571 | What is told is what was made: the first of the most tired outfielders is off, the first of the bench is on in his place and slot, nobody else has changed; nothing is told exactly for an empty bench |
| Rules.MostTired | apps/mock-producer/src/simulation.ts:546-547 | The most tired outfielder on the pitch, the first of them on ties |
| MatchEngine.Match.ResetToFormation | apps/mock-producer/src/simulation.ts:349-361 | Every player on the pitch is back in his slot; nobody else changes |
| MatchEngine.Match.StartKickoff | apps/mock-producer/src/simulation.ts:349-374 | Formation, and the ball on the centre spot for the first striker on the pitch, or else the first outfielder; moves the stage on |
| Rules.KickoffSpots | apps/mock-producer/src/simulation.ts:349-374 | After a kickoff the first striker, or else the first outfielder, has the ball on the centre spot and everybody else on the pitch is in his slot |
| MatchEngine.Match.MoveCarrier | apps/mock-producer/src/simulation.ts:575-598 | The carrier has run as the rule says from one draw and one sample and takes the ball along; he stays in bounds |
| Rules.RunsAtGoal | apps/mock-producer/src/simulation.ts:575-598 | But for the swerve the carrier gets nearer to the opposing goal by his whole stride, pushed back into the box |
| MatchEngine.Match.DriftOthers | apps/mock-producer/src/simulation.ts:599-639 | Everybody else on the pitch has drifted as the rule says, one draw and two samples each in their order; nobody else is touched |
| Rules.DriftNears | apps/mock-producer/src/simulation.ts:599-638 | But for the noise a man gets nearer by his whole step to his slot pushed 6 m with the play, or 3/13 of the way from there to the carrier when the other side has the ball |
| Rules.DriftTires | apps/mock-producer/src/simulation.ts:628-637 | A tick of drifting tires an outfielder by 10 to 25 millionths and a goalkeeper by 2.5 to 10, up to the whole |
| MatchEngine.Match.TickBallInFlight | apps/mock-producer/src/simulation.ts:641-673 | Until its time the ball is nobody's and flies in a bow; then the receiver has it, or, if he was substituted meanwhile, the first outfielder of the other side |
| Rules.PassComesDown | apps/mock-producer/src/simulation.ts:647-662 | A pass arrives where it was flying to, so the ball does not jump |
| Rules.PassIsLost | apps/mock-producer/src/simulation.ts:663-671 | When the receiver has gone off, the first outfielder of the other side has the ball |
| MatchEngine.Match.TickShotInFlight | apps/mock-producer/src/simulation.ts:675-755 | The shot flies in a bow to its aim; at its time it is told and becomes a goal, a save or a miss, as was fixed when it was taken |
| MatchEngine.Match.ScoreGoal | apps/mock-producer/src/simulation.ts:690-713 | The scoring side's score and no other goes up, the three events tell it, and the other side is to kick off |
| MatchEngine.Match.MakeSave | apps/mock-producer/src/simulation.ts:714-729 | The keeper has the ball and takes the goal kick; the save is told |
| MatchEngine.Match.MissTarget | apps/mock-producer/src/simulation.ts:730-753 | The ball is out off the shooter and the defending side has a goal kick |
| MatchEngine.Match.RecordGoal | apps/mock-producer/src/simulation.ts:690-711 | A goal, its line and its score change with both scores right, in that order |
| MatchEngine.Match.TickRestart | apps/mock-producer/src/simulation.ts:857-880 | Before its time everybody idles; when due, the first goalkeeper on his goal-kick spot, else an outfielder of the side drawn evenly, where the ball lies, has the ball, play resumes and nobody else is moved |
| Rules.RestartSpots | apps/mock-producer/src/simulation.ts:857-880 | A goal kick is a goalkeeper's at 47.5 m before his goal, any other restart an outfielder's where the ball lay; nobody else changes |
| MatchEngine.Match.TickCelebrate | apps/mock-producer/src/simulation.ts:846-856 | Everybody cheers; the conceding side kicks off when the celebration is over, told with its line |
| MatchEngine.Match.TickPlay | apps/mock-producer/src/simulation.ts:881-901 | After the run and the drift at most one thing is tried: a shot if the carrier is in the attacking third and its die says yes, else tackle, foul, ball out and pass in this order until a die says yes; what it tells and leaves is that of its rule |
| MatchEngine.Match.ForceCoverage | apps/mock-producer/src/simulation.ts:903-927 | In the last minute but its last five seconds the first of tackle, foul and ball out that has not been told is told, between the first outfielders; it touches nothing else |
| MatchEngine.Match.PushStateFrame | apps/mock-producer/src/simulation.ts:757-780 | The frame of the current state, appended |
| MatchEngine.LastWhistle | apps/mock-producer/src/simulation.ts:939-955 | From the invariant after the last tick to the account of the whole run |
| MatchEngine.ReachesHalf | apps/mock-producer/src/simulation.ts:174-176 | The last tick reaches half of the duration exactly for d <= 1 or d >= 100 |
| MatchEngine.FrameIsLegal | apps/mock-producer/src/simulation.ts:757-780 | Frames carry legal fatigue and at most one ball mark, agreeing with the carrier |
| Trace.OrdinaryTick | apps/mock-producer/src/simulation.ts:797-901 | But for half-time, substitutions and a restart or kickoff that is due, nobody moves more than 0.7 m in a tick or enters or leaves the pitch |
| Trace.PlayWasLeft | apps/mock-producer/src/simulation.ts:831-901 | Out of play, play was left at an earlier tick from which the present phase has at most 6500 ms |
| Trace.PlayResumes | apps/mock-producer/src/simulation.ts:831-901 | Among any 65 ticks in a row there is one in play |
| Trace.CutOffOn | apps/mock-producer/src/simulation.ts:798-822 | A longer trace has cut off a shot exactly when the shorter had or its last tick called half-time on a shot in flight |
| Trace.TracedOn | apps/mock-producer/src/simulation.ts:797-937 | A tick that keeps the laws prolongs a lawful trace |
| Trace.TurnFollows | apps/mock-producer/src/simulation.ts:831-901 | In every run a tick dispatches on the phase found or, at half-time, on play of the side that did not open, and what the phase has become follows from it |
| Trace.TickMoves | apps/mock-producer/src/simulation.ts:797-901 | In every tick of every run nobody moves more than 0.7 m but, at half-time and for the kickoff after a celebration, those on the pitch, the taker of a restart that is due, and the one man coming on when a substitution is due, nobody coming on or going off else |
| MatchStream.OrderedMeansSorted | apps/mock-producer/src/simulation.ts:257-276 | In an ordered book times never fall, and an event follows the frame of its own time only at the final whistle |
| MatchStream.FramesOnGrid | apps/mock-producer/src/simulation.ts:932-936 | The k-th frame is at 100 k |
| MatchStream.ScoresTold | apps/mock-producer/src/simulation.ts:376-378 | A score change tells exactly the goals so far of each side |
| MatchStream.TalliesAreCounts | apps/mock-producer/src/simulation.ts:376-378 | The book's tallies are the numbers of such messages in the stream |
| Squad.LineUpTeam | apps/mock-producer/src/simulation.ts:193-248 | The line-up is that of the roster: starters in mirrored slots by position and order, reserves off the pitch |
| Squad.StartersStand | apps/mock-producer/src/simulation.ts:96-224 | Starters stand in their mirrored slots facing the other goal, and the second man of a role stands across the pitch from the first |
| Squad.MotionConserves | apps/mock-producer/src/simulation.ts:575-639 | Movement keeps who is on the pitch and the multiset of slots |
| Squad.SubstitutionConserves | apps/mock-producer/src/simulation.ts:540-552 | A substitution keeps the multiset of slots, both roles and every starting goalkeeper |
| Squad.SquadsComplete | apps/mock-producer/src/simulation.ts:314-341 | Conserved squads have as many men on the pitch as at the start, their goalkeepers among them |
| Simulation.ShownLegal | apps/mock-producer/src/simulation.ts:757-780 | The players of a frame pass the validator's rules and the ball mark agrees with the carrier |
| Simulation.ShownCount | apps/mock-producer/src/simulation.ts:766-777 | A frame shows exactly the players on the pitch |
| Simulation.FrameTells | apps/mock-producer/src/simulation.ts:757-780 | A frame tells time, ball and carrier; everybody on the pitch is in it where he is, marked exactly when he has the ball, his fatigue to three places |
| Pitch.SlotForPlayer | apps/mock-producer/src/simulation.ts:83-106 | The formation slots of eleven men lie within the box |
| Pitch.SlotsInLines | apps/mock-producer/src/simulation.ts:83-106 | The slots stand in lines from goalkeeper to striker, wings mirror each other, and the other side sees them from its own goal |
| Pitch.MoveTowardInBox | apps/mock-producer/src/simulation.ts:151-157 | Moving between points of the box stays in the box |
| Pitch.MoveTowardStep | apps/mock-producer/src/simulation.ts:151-157 | No move is longer than the step |
| Pitch.MoveTowardNears | apps/mock-producer/src/simulation.ts:151-157 | A move gets nearer by exactly its step, and there when the step is long enough |
| Pitch.CarrierStep | apps/mock-producer/src/simulation.ts:575-598 | The clamped run of the carrier is no longer than its step |
| Pitch.RunsAt | apps/mock-producer/src/simulation.ts:575-587 | Running at a point gets nearer to it by exactly the step |
| Numerics.Rng.Range | apps/mock-producer/src/rng.ts:23-26 | A draw in the half-open range |
| Numerics.Rng.IntRange | apps/mock-producer/src/rng.ts:28-31 | A draw in the closed range of integers |
| Numerics.StretchEvenly | apps/mock-producer/src/rng.ts:23-26 | Equal parts of the draw go to equal parts of the range |
| Numerics.PickEvenly | apps/mock-producer/src/rng.ts:44-48 | Each index is drawn on an equal part of the draw |
| Numerics.ClampNonExpansive | apps/mock-producer/src/simulation.ts:137-139 | Clamping never takes a value away from a point of the range |
| Chunks.WriteChunks | apps/mock-producer/src/emitter.ts:136-165 | Chunks hold the messages of their windows in order; reading them in manifest order gives the stream back exactly when it never goes back a window |
| Chunks.WindowOfChunk | apps/mock-producer/src/emitter.ts:140-145 | A message belongs to chunk c exactly when its time lies from c to c + 1 chunk lengths |
| Chunks.ManifestRestores | apps/mock-producer/src/emitter.ts:136-165 | The same for any chunking with ascending indices |
| Chunks.OrderedStreamRestored | apps/mock-producer/src/emitter.ts:136-165 | The simulator's ordered stream never goes back a window |
| Chunks.NamesSortLikeIndices | apps/mock-producer/src/emitter.ts:161 | Padded names sort like the indices exactly below a million chunks |
| Chunks.NameOfChunk | apps/mock-producer/src/emitter.ts:161 | The name of chunk 7, spelled out |
| Broadcast.SseEmitter.Connect | apps/mock-producer/src/emitter.ts:239-257 | A new client gets init and the recent messages; a wrong path joins nobody |
| Broadcast.SseEmitter.Send | apps/mock-producer/src/emitter.ts:262-271 | Every connected client and nobody else gets the next message |
| Broadcast.SseEmitter.Run | apps/mock-producer/src/emitter.ts:233-275 | Under every interleaving attendance follows the schedule and every client has received exactly what he is owed |
| Broadcast.SendDelivers | apps/mock-producer/src/emitter.ts:262-271 | One send keeps every client's account exact |
| Broadcast.NoGapNoRepeat | apps/mock-producer/src/emitter.ts:248-271 | What a client is owed is init, the last forty messages before he joined or all if fewer, and every message until he left, without gap or repetition |
| Broadcast.RoomTold | apps/mock-producer/src/emitter.ts:239-271 | Under every schedule, what has been sent and who has a visit, told from the schedule alone |
| Broadcast.VisitTold | apps/mock-producer/src/emitter.ts:253-271 | A visit starts with what was sent before the client joined and goes on until he leaves, whatever the others do |
| Broadcast.VisitOver | apps/mock-producer/src/emitter.ts:254-271 | After he has left a client's visit stays as it was |
| Validator.ValidateMessage | apps/mock-producer/src/validator.ts:50-61 | Accepts exactly the values that satisfy the declarative rules of their type |
| Validator.ValidateMatchInit | apps/mock-producer/src/validator.ts:63-97 | Accepts exactly two well-formed teams with well-formed, non-empty rosters, and well-formed header fields |
| Validator.ValidateStateFrame | apps/mock-producer/src/validator.ts:99-123 | The counting loop accepts exactly well-formed frames with at most one ball mark, and fails on a property of null exactly when a null player comes before any faulty one |
| Validator.ValidateEvent | apps/mock-producer/src/validator.ts:125-201 | Accepts exactly the events whose type is known and whose fields fit it |
| Validator.FrameAcceptedExactly | apps/mock-producer/src/validator.ts:99-123 | A written frame is accepted exactly when it is legal in the simulator's typed sense |
| Validator.EventAcceptedExactly | apps/mock-producer/src/validator.ts:125-201 | A written event is accepted exactly when it is legal in the typed sense |
| Validator.InitAcceptedExactly | apps/mock-producer/src/validator.ts:63-97 | The opening message is accepted exactly when both rosters have players |
| Validator.LegalStreamAccepted | apps/mock-producer/src/validator.ts:50-61 | Every message of a stream with a legal book is accepted |
| Schema.RulesAreTheFormat | apps/mock-producer/src/validator.ts:50-201 | The validator's rules accept exactly the values in the shape of the format table for their type |
| CheckedStream.Simulate | apps/mock-producer/src/simulation.ts:170-961 | The validator accepts every message of every run |
| Highlights.DetectHighlights | apps/clip-pipeline/src/highlights.ts:86-136 | The merged windows are the connected components of the raw ones: same instants, strict gaps, greatest importance and its kind; every qualifying event's window lies in one of at least its importance, and every one comes from a qualifying event of its kind |
| Highlights.RawAreCandidates | apps/clip-pipeline/src/highlights.ts:54-105 | The raw windows are those of the qualifying events, one each in order, with kind, importance, start and end as numbers and player and team of the event |
| Highlights.EveryEventShown | apps/clip-pipeline/src/highlights.ts:86-136 | Every qualifying event's window lies inside a highlight of at least its importance |
| Highlights.EveryHighlightFounded | apps/clip-pipeline/src/highlights.ts:86-136 | Every highlight comes from a qualifying event of its kind and importance |
| Highlights.NoHighlightWithoutEvent | apps/clip-pipeline/src/highlights.ts:86-107 | There are no highlights exactly when no event qualifies |
| Highlights.MergeIsComponents | apps/clip-pipeline/src/highlights.ts:114-133 | Greedy merging of sorted windows yields the components |
| Highlights.ComponentsUnique | apps/clip-pipeline/src/highlights.ts:114-133 | Separated windows are determined by the instants they cover |
| Highlights.OrderIndependent | apps/clip-pipeline/src/highlights.ts:86-136 | Permuting the events changes no window, importance or kind |
| Highlights.TopHighlights | apps/clip-pipeline/src/highlights.ts:139-151 | A chronological subsequence of the asked size that no omitted window outranks |
| CanonicalJson.StringComesBack | apps/clip-pipeline/src/clip-id.ts:32-39 | Every string is read back from its quoted form |
| CanonicalJson.ValueComesBack | apps/clip-pipeline/src/clip-id.ts:32-40 | Parsing undoes printing for every tree, whatever follows |
| CanonicalJson.CanonicalIsPlainNorm | apps/clip-pipeline/src/clip-id.ts:32-40 | The canonical printer prints the tree with sorted keys |
| CanonicalJson.CanonicalRoundTrip | apps/clip-pipeline/src/clip-id.ts:32-40 | Parsing the canonical text gives the tree with its keys sorted |
| CanonicalJson.NormSortsKeys | apps/clip-pipeline/src/clip-id.ts:28-39 | The canonical form has ascending keys at every depth and is the same tree up to key order |
| CanonicalJson.NormDecides | apps/clip-pipeline/src/clip-id.ts:28-40 | Two trees have one canonical form exactly when they are equal up to key order |
| CanonicalJson.SameTextSameTree | apps/clip-pipeline/src/clip-id.ts:28-40 | Two trees print the same exactly when they are equal up to key order |
| CanonicalJson.CanonicalWellFormed | apps/clip-pipeline/src/clip-id.ts:24 | The text has no lone surrogate, so hashing its UTF-8 form loses nothing |
| ClipId.PreimagesDiffer | apps/clip-pipeline/src/clip-id.ts:15-23 | Two requests hash the same text exactly when they are equal |
| ClipId.IdsCollideOnlyByHash | apps/clip-pipeline/src/clip-id.ts:15-26 | Different requests share an id exactly when the truncated digests of two different texts collide |
| ClipId.WholeNumbersLawful | apps/clip-pipeline/src/clip-id.ts:33 | Decimal whole numbers meet what the printer needs of numerals |
| ClipText.UnitSpelled | apps/clip-pipeline/src/clip-id.ts:33 | How each code unit is written inside a string |
| ClipText.Spelling | apps/clip-pipeline/src/clip-id.ts:15-39 | The punctuation, keys and format names as text |
| ClipText.PreimageSpelled | apps/clip-pipeline/src/clip-id.ts:15-23 | The hashed text is the six fields in key order, null for a missing overlay or source |
| ClipText.IdSpelled | apps/clip-pipeline/src/clip-id.ts:24-25 | An id is `clip_` and sixteen digits of the digest |
| ClipQueue.NextKeeps | apps/clip-pipeline/src/queue.ts:57-139 | Every step keeps the queue's accounts and moves statuses only forward |
| ClipQueue.NoLostWakeup | apps/clip-pipeline/src/queue.ts:57-101 | In every run in which ffmpeg resolves, pending work or a waiter implies a running runner at every await |
| ClipQueue.StrandedExactly | apps/clip-pipeline/src/queue.ts:57-101 | In every run work is stranded exactly when some step let a rejection through the finally block while ids were pending and no later step submits an id for the first time |
| ClipQueue.StrandStep | apps/clip-pipeline/src/queue.ts:57-101 | One step strands work exactly by letting a rejection through with ids pending, and frees it exactly by submitting an unknown id |
| ClipQueue.JobsAreSubmissions | apps/clip-pipeline/src/queue.ts:57-73 | After every run the table holds exactly the ids submitted |
| ClipQueue.StatusTold | apps/clip-pipeline/src/queue.ts:103-139 | In every run a job is done exactly when ffmpeg resolved well for it, failed exactly when it resolved badly, its folder could not be made or it had no source, and queued exactly while pending |
| ClipQueue.SourceTold | apps/clip-pipeline/src/queue.ts:57-73 | A job keeps the source of the submission that added it |
| ClipQueue.WaitersTold | apps/clip-pipeline/src/queue.ts:78-101 | Waiters are counted, and released exactly by the runner's stop |
| ClipQueue.RejectionStrandsWork | apps/clip-pipeline/src/queue.ts:83-128 | A run in which a rejection strands the second clip |
| ClipQueue.OnceInOrder | apps/clip-pipeline/src/queue.ts:57-94 | Each id is taken and encoded at most once, in the order of submission |
| ClipQueue.StatusesMoveForward | apps/clip-pipeline/src/queue.ts:153-176 | Along every run each job's status only moves forward |
| ClipQueue.MovedOnIsReachable | apps/clip-pipeline/src/queue.ts:167-176 | Moving forward is what valid transitions add up to |
| ClipQueue.IdleMeansSettled | apps/clip-pipeline/src/queue.ts:78-101 | When the queue is idle or releases a waiter, every submitted job is done or failed |
| ClipQueue.RunnerAdvances | apps/clip-pipeline/src/queue.ts:83-139 | A running runner can be resumed, and each resumption brings it nearer its end |
| ClipQueue.Drains | apps/clip-pipeline/src/queue.ts:83-139 | Left alone, whatever mkdir and ffmpeg answer, the queue settles every job |
| ClipQueue.RenderQueue.Submit | apps/clip-pipeline/src/queue.ts:57-73 | Steps the queue by one submission; known ids change nothing |
| ClipQueue.RenderQueue.WaitForIdle | apps/clip-pipeline/src/queue.ts:78-81 | Resolves at once exactly when idle with nothing pending |
| ClipQueue.RenderQueue.MkdirSettles | apps/clip-pipeline/src/queue.ts:113-128 | The rest of process after mkdir; the transition is never refused |
| ClipQueue.RenderQueue.FfmpegResolves | apps/clip-pipeline/src/queue.ts:130-139 | The rest of process after ffmpeg; the transition is never refused |
| ClipQueue.RenderQueue.FfmpegRejects | apps/clip-pipeline/src/queue.ts:121-128 | The error leaves process and the job stays rendering |
| ClipQueue.RenderQueue.TickResumes | apps/clip-pipeline/src/queue.ts:83-101 | The loop goes on to the next job, or stops and releases the waiters |
| ClipQueue.RenderQueue.Transition | apps/clip-pipeline/src/queue.ts:153-159 | Changes the status exactly when the transition is valid |
| RateTable.KeysNeverCollide | apps/auth-sms/src/lockout.ts:61-71 | Row keys of different subjects or purposes differ, whatever the phone or address text |
| RateTable.BucketStart | apps/auth-sms/src/rate-limit.ts:63-65 | The aligned window that holds the time |
| RateTable.RateStore.BumpRateBucket | apps/auth-sms/src/storage.ts:1183-1201 | Counts one more in exactly one row and returns the count |
| RateTable.RateStore.PruneRateBuckets | apps/auth-sms/src/storage.ts:1210-1216 | Deletes exactly the rows that start before the cut-off and tells how many |
| RateTable.RateStore.ReadScalar | apps/auth-sms/src/lockout.ts:175-183 | The latest start among a key's rows, or zero |
| RateTable.RateStore.WriteScalar | apps/auth-sms/src/lockout.ts:185-195 | Replaces every row of the key by one |
| RequestLimiter.CheckOtpRequestLimit | apps/auth-sms/src/rate-limit.ts:73-131 | Accepts exactly when the cool-down window is empty and both hourly counts are below their caps, and then counts in three rows and prunes; else changes nothing |
| RequestLimiter.RetryAfterIsWindowEnd | apps/auth-sms/src/rate-limit.ts:83-116 | A blocked caller is told exactly the rest of the window it fills |
| Lockout.CheckVerifyAllowed | apps/auth-sms/src/lockout.ts:79-112 | Locked exactly while the sentinel lies ahead, else throttled exactly when the address's window has reached its cap, each with its wait; changes nothing |
| Lockout.RecordIpAttempt | apps/auth-sms/src/lockout.ts:115-124 | Counts one attempt in the address's window |
| Lockout.RecordPhoneFailure | apps/auth-sms/src/lockout.ts:130-150 | Counts one failure and locks at the threshold |
| Lockout.ClearPhoneFailures | apps/auth-sms/src/lockout.ts:156-168 | Removes a phone's failures and its sentinel and nothing else |
| Limits.NextKeeps | apps/auth-sms/src/storage.ts:1183-1216 | Every call keeps young counters equal to the log and one sentinel per phone |
| Limits.TableAnswersLikeLog | apps/auth-sms/src/rate-limit.ts:79-131 | After every run, whatever was pruned, all three limiters answer as the whole call log says |
| Limits.VerifyAnsweredExactly | apps/auth-sms/src/lockout.ts:79-112 | After every run, told from the calls alone: a phone is locked exactly when a call that locks it came less than the lockout ago, and waits for the latest of them; an unlocked phone's address is throttled exactly when its attempts in the aligned window have reached the cap, and waits out the window |
| Limits.RequestAnsweredExactly | apps/auth-sms/src/rate-limit.ts:73-131 | After every run, told from the calls alone: a request is accepted exactly when none was accepted in its cool-down window and fewer than the caps in the hour; else the first reason that holds, and its wait |
| Limits.TallyIsCalls | apps/auth-sms/src/storage.ts:1183-1201 | The tallies of the log are numbers of calls |
| Limits.LastLock | apps/auth-sms/src/lockout.ts:130-150 | The last trip is the latest call that locks |
| Limits.PruningHarmlessExactly | apps/auth-sms/src/rate-limit.ts:123-124 | Pruning changes no counter anyone asks for exactly when every window is at most 7201 seconds |
| Limits.RequestsCapped | apps/auth-sms/src/rate-limit.ts:83-121 | A phone or address is accepted at most its cap per aligned hour and twice its cap in any hour; a phone once per cool-down window |
| Limits.LockedExactly | apps/auth-sms/src/lockout.ts:79-195 | A phone is locked exactly when, since its last clear, a failure later than now minus the lockout was at least the threshold-th of its window |
| Limits.LastTripIsLatest | apps/auth-sms/src/lockout.ts:130-150 | The sentinel stands for the latest such failure |
| Limits.OneSentinel | apps/auth-sms/src/lockout.ts:185-195 | At most one sentinel row per phone exists |
| Limits.ExpiryNeverMovesBack | apps/auth-sms/src/lockout.ts:126-150 | Along every run on which the phone is not cleared its sentinel never moves back, across pruned gaps too, and it is gone only more than two hours after it expired |
| WaThrottle.Throttle.GetWhatsAppAvailability | apps/auth-sms/src/wa-throttle.ts:73-122 | The live state; re-enables after the cool-down; creates the first row |
| WaThrottle.Throttle.RecordWhatsAppSend | apps/auth-sms/src/wa-throttle.ts:131-175 | Counts the send; switches an enabled channel off at the threshold; tells whether this send did it |
| WaThrottle.Throttle.SetWhatsAppEnabledByAdmin | apps/auth-sms/src/wa-throttle.ts:182-205 | The admin's state replaces the row |
| WaThrottle.SendsPerHour | apps/auth-sms/src/wa-throttle.ts:73-175 | In every run without an admin enable a clock hour holds at most max(threshold, workers) + workers - 1 sends |
| WaThrottle.ThresholdBoundExactly | apps/auth-sms/src/wa-throttle.ts:73-175 | threshold + workers - 1 bounds every hour of every run exactly when there are no more workers than the threshold |
| WaThrottle.CrowdedHour | apps/auth-sms/src/wa-throttle.ts:73-175 | A run that puts 2 * workers - 1 sends into one hour |
| WaThrottle.SendsPerSpan | apps/auth-sms/src/wa-throttle.ts:73-175 | With one worker any 3600 s span holds at most twice the threshold, less one |
| WaThrottle.AdminDisableSticks | apps/auth-sms/src/wa-throttle.ts:177-205 | An admin disable is undone only by an admin enable, and until then only sends already checked are recorded |
| WaThrottle.AdminEnableGrants | apps/auth-sms/src/wa-throttle.ts:177-205 | After an admin enable the next check of a free worker is granted, whatever the throttle had done |
| WaThrottle.AdminDisableRefuses | apps/auth-sms/src/wa-throttle.ts:177-205 | After an admin disable it is refused |
| WaThrottle.TripsExactly | apps/auth-sms/src/wa-throttle.ts:131-175 | After any run a recorded send switches the channel off exactly when it is on and the hour's sends have reached the threshold |
| WaThrottle.CoolsDownExactly | apps/auth-sms/src/wa-throttle.ts:73-122 | Switched off by the throttle, the channel grants no check before its cool-down is over and the first one after it |
| WaThrottle.OnAtFirst | apps/auth-sms/src/wa-throttle.ts:73-122 | The first check finds the channel on |
| Identity.Storage.FindOrCreateUser | apps/auth-sms/src/storage.ts:692-728 | One user per phone: found and refreshed, or created; unless refused the phone then resolves to the user answered |
| Identity.Storage.FindOrCreateEmailUser | apps/auth-sms/src/storage.ts:736-773 | One user per email: found and refreshed, or created; unless refused the email then resolves to the user answered |
| Identity.Storage.FindOrCreateTelegramUser | apps/auth-sms/src/storage.ts:782-857 | A returning user, a phone's user now linked, or a new one; unless refused the Telegram id then resolves to the user answered |
| Identity.Storage.InsertBotUser | apps/auth-sms/src/storage.ts:873-911 | Idempotent on the id |
| Identity.Storage.LinkTelegramToUser | apps/auth-sms/src/storage.ts:935-1003 | Links, refreshes, absorbs a bare account, or refuses |
| Identity.Storage.LinkPhoneToTelegramUser | apps/auth-sms/src/storage.ts:1023-1042 | Sets a phone only where none is and nobody else has it |
| Identity.Storage.UpdateUser | apps/auth-sms/src/storage.ts:1050-1077 | Changes exactly the patched columns |
| Identity.Storage.InsertSession | apps/auth-sms/src/storage.ts:1157-1164 | Refused for a taken id or token id or an unknown user |
| Identity.Storage.RevokeSessionByJti | apps/auth-sms/src/storage.ts:1173-1175 | Afterwards no session has the token id |
| Identity.ApplyKeeps | apps/auth-sms/src/storage.ts:172-190 | Every call keeps the unique indexes, the foreign key and every non-empty phone's owner |
| Identity.PhoneSignIn | apps/auth-sms/src/storage.ts:692-728 | Refused exactly when the phone is new and the id taken; else the answered user alone changes: found and touched, or created with that phone and nothing else to sign in by |
| Identity.EmailSignIn | apps/auth-sms/src/storage.ts:736-773 | The same by email |
| Identity.SameUserAgain | apps/auth-sms/src/storage.ts:692-773 | Signing in again by the same phone or email answers the same user |
| Identity.TelegramSignIn | apps/auth-sms/src/storage.ts:782-857 | Who is answered, which columns change and how, in each of the three cases; every other row is unchanged |
| Identity.SameTelegramUserAgain | apps/auth-sms/src/storage.ts:782-857 | Signing in again by Telegram answers the same user unless refused |
| Identity.TelegramRefused | apps/auth-sms/src/storage.ts:782-857 | A Telegram sign-in is refused for a phone or an id somebody has and for nothing else |
| Identity.BotInserted | apps/auth-sms/src/storage.ts:873-911 | A bot is inserted once, with nothing to sign in by |
| Identity.TelegramLinked | apps/auth-sms/src/storage.ts:935-1003 | Linking greets the user and gives him the id; only an absorbed account goes; any other answer changes nothing |
| Identity.PhoneLinked | apps/auth-sms/src/storage.ts:1023-1042 | Each answer exactly, and only a link changes the store |
| Identity.UserUpdated | apps/auth-sms/src/storage.ts:1050-1077 | Exactly the columns the patch names are set or cleared; refused exactly for somebody else's email |
| Identity.SessionsKept | apps/auth-sms/src/storage.ts:1157-1175 | A session is stored as it is; revoking removes exactly those with the token id |
| Identity.ConstraintsHold | apps/auth-sms/src/storage.ts:172-190 | In every run phone, email and Telegram id are unique when set and every session's user exists |
| Identity.PhoneResolvesForEver | apps/auth-sms/src/storage.ts:692-1042 | Once a non-empty phone resolves to a user it does so for ever |
| Identity.EmptyPhoneMoves | apps/auth-sms/src/storage.ts:1023-1042 | A run on which the empty phone resolves to a user and then to nobody: linking a real one replaces it |
| Identity.StaysForEverExactly | apps/auth-sms/src/storage.ts:692-1042 | Over all runs a phone keeps its user for ever exactly when it is not empty |
| Identity.LinkTelegramDecides | apps/auth-sms/src/storage.ts:913-1003 | The answer by who holds the Telegram id; absorbing is refused exactly when a session refers to the bare account; after linking the id resolves to the user |
| Identity.ReturningTelegramUserRefused | apps/auth-sms/src/storage.ts:791-808 | A returning user is refused exactly when he has no phone and brings one that somebody has |
| Identity.ReturnWithForeignPhone | apps/auth-sms/src/storage.ts:782-808 | A run that reaches this refusal: two sign-ups, then the Telegram user returns with the other's phone |
| Identity.AbsorbedUnlessSignedIn | apps/auth-sms/src/storage.ts:935-1003 | A run after which the bare Telegram account is absorbed, and the same run with one session more after which the call is refused |
| Odds.StripVigIsDistribution | apps/odds-ingest/src/normalise.ts:198-203 | Probabilities in [0, 1] that sum to one exactly when some price is positive, and are all zero otherwise |
| Odds.StripVigKeepsProportions | apps/odds-ingest/src/normalise.ts:198-203 | Probability times price is the same for every priced outcome, so the book's proportions are kept |
| Odds.OneBookDecides | apps/odds-ingest/src/normalise.ts:209-224 | A single book is its own consensus |
| Odds.MedianProbs | apps/odds-ingest/src/normalise.ts:209-224 | The column-by-column loop computes the consensus: each column's value is a median of the column, by counts over the unsorted entries, and the results are the medians scaled to sum to one |
| Odds.MedianExactly | apps/odds-ingest/src/normalise.ts:215-219 | The middle of the sorted column is the median by counts, and there is no other |
| Odds.MedianHalves | apps/odds-ingest/src/normalise.ts:215-219 | At least half of the entries are at most it and at least half at least it; an entry for odd counts, halfway between two neighbours for even ones |
| Odds.FewBooksCannotMove | apps/odds-ingest/src/normalise.ts:205-219 | Replacing fewer than half of the books cannot push an outcome's median out of the range of the others |
| Odds.ConsensusIsDistribution | apps/odds-ingest/src/normalise.ts:209-224 | The consensus lies in [0, 1] and sums to one or is all zero |
| Odds.OrderIrrelevant | apps/odds-ingest/src/normalise.ts:209-224 | Rearranging the books changes nothing while the first keeps its length |
| Odds.OrderFreeExactlyWhenAligned | apps/odds-ingest/src/normalise.ts:205-224 | No rearrangement matters exactly when all books have one length |
| Odds.MedianComplement | apps/odds-ingest/src/normalise.ts:215-219 | The median of complements is the complement of the median, for odd and even counts |
| Odds.TwoWayMediansAddUp | apps/odds-ingest/src/normalise.ts:209-224 | With two positive prices per book the medians already sum to one and the renormalisation is the identity |

## Left out

- MatchEngine.RunSimulation: commentary text, clock display, venue and competition fields are opaque or absent; floats are reals,
  so rounding by `toFixed` plays no part; the final no-op guard is never reached and not modelled.
- MatchEngine.Match.Tick: player objects are values in a sequence named by index, so aliasing between the roster map and the
  player list is not modelled; ids are distinct, which makes the two views agree.
- Identity.Storage.LinkTelegramToUser: the display name comes already joined from first and last name.
- Numerics.Rng.Range: the seeded generator and the Box-Muller transform are an arbitrary oracle of uniform and normal samples.
- Runs.CoverageForced: of the event types a match should show, pass, shot, goal and save depend on the dice and substitutions on the
  bench, so only the three forced ones are promised.
- Pitch.SlotForPlayer: position names that are properties of every JavaScript object (`toString` and the like) are not modelled.
- Chunks.WriteChunks: compression, file writing and the manifest's text lines are left out; the order of names is kept.
- Broadcast.SseEmitter.Run: timers, abort signals and sockets are left out; the WebSocket emitter has the same backlog and adds
  only a check of the socket's state.
- Validator.ValidateMessage: error texts and paths are left out; property lengths of strings and arrays are not consulted.
- Highlights.DetectHighlights: event times are non-negative, as milliseconds since the start of the stream are.
- Highlights.OrderIndependent: leaves out player and team, which can differ when windows of equal importance tie.
- CanonicalJson.CanonicalRoundTrip: trees hold no undefined and only finite numbers; how a double is written in decimal is a
  parameter with a law, proved for whole numbers only. Negative zero prints as `0`, so doubles meet that law, and the round trip
  holds of them, only with -0 and 0 taken for one number.
- ClipId.IdsCollideOnlyByHash: the hash function is uninterpreted.
- ClipQueue.NextKeeps: output paths, links, error texts and time stamps of jobs are left out, as are ffmpeg's arguments.
- Limits.TableAnswersLikeLog: each exported function is one atomic step at one instant, times are whole seconds and do not go
  back, windows are positive; the counter of issued codes per address uses a further key and is not modelled.
- WaThrottle.SendsPerHour: each entry point is one atomic step, although check and write are separate statements for processes.
- Identity.Storage.FindOrCreateEmailUser: the email is already trimmed and lower-cased; ids come from outside and may collide.
- Identity.PhoneResolvesForEver: rows deleted by other applications on the same file (`apps/admin/lib/live.ts`,
  `apps/seed-bots/src/write.ts`) are not calls of this store.
- One-time-password rows, magic links, look-up by handle, migrations and SQL text of the store.
- Regular-expression classification, alias look-up and polling in `apps/odds-ingest`.
- HTTP routes, admin pages, CRM clients, native bridges and infrastructure scripts: plumbing that would add only easy members.
