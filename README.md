# Psyche engine (organo-sima) in Dafny

This project models the psyche engine of the bot: the once-per-message pipeline
that turns a user's message into a decision about how to answer. Each step
updates bounded numeric state and derives categorical results from fixed rule
tables:

- **Soma** (`soma.dfy`): five need tanks (energia, integridad, afiliacion,
  certeza, competencia) clamped to [0,100], decaying with elapsed minutes,
  pushed by damage, affection, confusion, outcomes and recharge; the dominant
  need and the critical needs.
- **Perception** (`perception.dfy`): normalisation, keyword scoring against the
  stimulus taxonomy, intensity and features of the message.
- **Id** (`id.dfy`): impulses from the tank levels, sorted, with a dominant
  impulse and a conflict flag; cathexis and stimulus evaluation.
- **Superego** (`superego.dfy`): the prohibition censor, guilt, the suggested
  defense and the defense log.
- **Evaluation** (`evaluation.dfy`): the chain quota of affects → emotion
  vector → basic → extended emotions → feeling, the dominant emotion and the
  feeling's description.
- **Modulators** (`modulators.dfy`): weighted arousal, resolution tier,
  selection threshold and the first matching emotion pattern.
- **Primary process** (`primary_process.dfy`): thing representatives, the
  drive track, primal repressions, the defense track with its six transforms
  and the superego's proactive proposals.
- **Secondary process** (`secondary_process.dfy`): word representatives, trial
  actions with causality and reality checks, selection of at most three
  trials, the decision, its mode and behaviour, bounded history and feedback
  queues, and the prompt instructions.
- **Memory** (`memory.dfy`): the somatic-marker map (averaging reinforcement,
  decay with pruning, strongest marker) and the episode log capped at 100.
- **Ego** (`ego.dfy`) and **PsiOrgan** (`psi_organ.dfy`): the final mode
  priority (somatic avoidance > pure primary > active defense > secondary),
  the token budget, the bounded decision history, stimulus dispatch to the
  soma, the episode record, marker preloading and spontaneous behaviour.
- **Homeostatic middleware** (`middleware.dfy`), **world simulator**
  (`world.dfy`) and **zeitgeist** (`zeitgeist.dfy`): keyword accessibility and
  frustration per tank, the time-of-day, season, routine, comfort, drain,
  affordance and arousal classifiers, and the first active calendar event with
  its atmospheric prompt.

`types.dfy` holds the shared value types (tanks, levels, stimuli) and
`util.dfy` generic helpers (Option, clamping, substring search, splitting,
joining, a stable descending insertion sort).

Objects whose fields the source updates in place are classes with `modifies`
clauses (the soma's tanks, the id's impulses and cathexes, the superego's
defense log, the tracks of both processes, the memory's markers and episodes,
the ego's history, the organ itself); each method is proved against a
specification function of the old state, and the properties are lemmas about
those functions. Rule tables, classifiers and the world and zeitgeist helpers
are functions. All arithmetic is exact `real`. The clock is a `now`
parameter (milliseconds) and the one random draw of the defense track is an
oracle `rand: nat -> real` passed in.

## Model

| member | source | states |
|---|---|---|
| Util.LowerChar | core/organo-sima/hippocampus/memory.js:71 | `toLowerCase` on one character: an ASCII or Latin-1 capital (U+00C0..U+00DE except ×) moves up by 32 to its small letter, every other character stays, and no result is a capital |
| Util.LowerSpanishCapitals | core/organo-sima/hippocampus/memory.js:71 | Á É Í Ó Ú Ü Ñ lower to á é í ó ú ü ñ, and × stays |
| Util.SortedFilterHead | core/organo-sima/L3_cortex/secondary_process.js:242-254 | after the stable sort by descending key, the first element the filter keeps is the earliest element of the original list with the largest key among those the filter keeps |
| Types.TankIndex | core/organo-sima/L1_hypothalamus/soma.js:13-50 | every tank has a position in the declaration order energia, integridad, afiliacion, certeza, competencia |
| Soma.Clamped | core/organo-sima/L1_hypothalamus/soma.js:270-274 | every tank ends in [0,100], is its level clamped to that range, and an in-range state is left as it is |
| Soma.Decayed | core/organo-sima/L1_hypothalamus/soma.js:135-137 | each tank drops by its decay rate times the elapsed minutes |
| Soma.UrgencyOf | core/organo-sima/L1_hypothalamus/soma.js:228-233 | critical below the threshold, high below threshold+20, medium below threshold+40, low otherwise, each an if-and-only-if |
| Soma.DecayNeverRaises | core/organo-sima/L1_hypothalamus/soma.js:129-141 | with non-negative elapsed time and non-negative levels, a tick never raises a tank |
| Soma.DominantUnique | core/organo-sima/L1_hypothalamus/soma.js:215-225 | the dominant need is determined: the first tank with the largest deficit, ties going to the earlier tank |
| Soma.CriticalListMatchesUrgency | core/organo-sima/L1_hypothalamus/soma.js:228-265 | a tank is among the critical needs exactly when its urgency is critical |
| Soma.Soma.constructor | core/organo-sima/L1_hypothalamus/soma.js:60-77 | the initial levels default to 100, 100, 50, 70 and 60 |
| Soma.Soma.ClampTanks | core/organo-sima/L1_hypothalamus/soma.js:270-274 | the new levels are the old ones clamped to [0,100] |
| Soma.Soma.DecayTanks | core/organo-sima/L1_hypothalamus/soma.js:133-138 | the loop lowers each tank by its decay rate times the elapsed minutes and leaves the clock alone |
| Soma.Soma.Tick | core/organo-sima/L1_hypothalamus/soma.js:129-141 | the clock moves to now; every tank decays by rate times elapsed minutes and is clamped; the returned state describes the new levels |
| Soma.Soma.ConsumeAction | core/organo-sima/L1_hypothalamus/soma.js:146-149 | energia drops by the action cost 2, clamped; no other in-range tank changes |
| Soma.Soma.ReceiveDamage | core/organo-sima/L1_hypothalamus/soma.js:159-163 | integridad drops by 15·i and afiliacion by 5·i, clamped; no other in-range tank changes |
| Soma.Soma.ReceiveAffection | core/organo-sima/L1_hypothalamus/soma.js:169-173 | afiliacion rises by 10·i and integridad by 3·i, clamped; no other in-range tank changes |
| Soma.Soma.ExperienceConfusion | core/organo-sima/L1_hypothalamus/soma.js:178-181 | certeza drops by 10·i, clamped; no other in-range tank changes |
| Soma.Soma.ExperienceOutcome | core/organo-sima/L1_hypothalamus/soma.js:187-196 | success adds 8 to competencia and 5 to certeza, failure subtracts 12 and 3, clamped; no other in-range tank changes |
| Soma.Soma.Recharge | core/organo-sima/L1_hypothalamus/soma.js:201-204 | energia rises by the amount, clamped; no other in-range tank changes |
| Soma.Soma.GetDominantDrive | core/organo-sima/L1_hypothalamus/soma.js:215-241 | the result is the dominant need: a maximal deficit, the earliest tank on ties, with its level, deficit and urgency |
| Soma.Soma.GetCriticalNeeds | core/organo-sima/L1_hypothalamus/soma.js:257-265 | exactly the tanks below their critical threshold, in declaration order |
| Soma.Soma.GetState | core/organo-sima/L1_hypothalamus/soma.js:246-252 | the levels, the dominant need and the critical needs of the current state |
| Soma.Soma.Restore | core/organo-sima/L1_hypothalamus/soma.js:289-293 | the saved levels (if any) and the saved clock (if truthy) are taken, then a tick is applied |
| Perception.EntryOf | core/organo-sima/L2_thalamus/perception.js:13-64 | every stimulus type has its entry in the taxonomy |
| Perception.FoldChar | core/organo-sima/L2_thalamus/perception.js:121-126 | a folded character is never upper-case ASCII and never an accented letter |
| Perception.Normalize | core/organo-sima/L2_thalamus/perception.js:121-127 | the normalized text has no upper-case ASCII letter, no accented letter and no combining mark |
| Perception.Score | core/organo-sima/L2_thalamus/perception.js:136-142 | a category scores at most one point per keyword |
| Perception.BestOfIsBest | core/organo-sima/L2_thalamus/perception.js:132-155 | the classification scores at least as high as every category, and strictly higher than every earlier one (the first maximum wins); with no hit it is NEUTRAL with score 0 |
| Perception.ClassifyStimulus | core/organo-sima/L2_thalamus/perception.js:132-155 | the loop returns the best match: the first category with the highest keyword count, or NEUTRAL/0/neutral/afiliacion |
| Perception.ClassificationMatchesEntry | core/organo-sima/L2_thalamus/perception.js:145-151 | the chosen valence and affected tanks are those of the chosen taxonomy entry |
| Perception.ClassificationIsEntry | core/organo-sima/L2_thalamus/perception.js:145-151 | the classification of any text carries exactly the valence and affected tanks of its type's taxonomy entry |
| Perception.AccentedKeywordNeverMatches | core/organo-sima/L2_thalamus/perception.js:121-139 | a keyword that contains an accented letter can never occur in the normalized input |
| Perception.CountWhere | core/organo-sima/L2_thalamus/perception.js:168-172 | a character count is at most the length |
| Perception.CountWhereNone | core/organo-sima/L2_thalamus/perception.js:168 | a text with no upper-case letter has an upper-case count of 0 |
| Perception.Intensity | core/organo-sima/L2_thalamus/perception.js:161-181 | for non-empty input the intensity lies in [0.5, 1], the raw sum capped at 1 |
| Perception.NormalizedIntensity | core/organo-sima/L2_thalamus/perception.js:161-181 | on normalized text the upper-case term vanishes: 0.5 + 0.15·score + 0.1·bangs + 0.15 for a triple run, capped at 1 (see also line 88) |
| Perception.ExtractFeatures | core/organo-sima/L2_thalamus/perception.js:186-204 | the length, isShort iff length < 10, isLong iff length > 100, isQuestion iff a `?` occurs, hasEmoji iff an emoticon occurs, and the reply flag |
| Perception.Process | core/organo-sima/L2_thalamus/perception.js:81-116 | the stimulus keeps the raw text, the normalized text, the classified type with that entry's valence and tanks, an intensity in [0.5, 1], and the user id or "unknown" |
| Id.CalcularUrgencia | core/organo-sima/L3_cortex/id.js:164-169 | critica below 20, alta below 40, media below 60, baja otherwise, each an if-and-only-if |
| Id.Candidates | core/organo-sima/L3_cortex/id.js:64-79 | the collected impulses come from the tanks scanned so far, each built from its own tank's level, and only for tanks whose deficit exceeds 20 |
| Id.CandidatesComplete | core/organo-sima/L3_cortex/id.js:64-79 | every scanned tank whose deficit exceeds 20 yields its impulse |
| Id.DrivesOfElements | core/organo-sima/L3_cortex/id.js:61-90 | every listed impulse is its tank's impulse, for a tank whose deficit exceeds 20 |
| Id.DrivesOfCoverage | core/organo-sima/L3_cortex/id.js:64-79 | a tank has an impulse exactly when its level is below 80 |
| Id.DrivesOfIntensities | core/organo-sima/L3_cortex/id.js:69-77 | each impulse has intensity (100 − level)/100 and the urgency of its level |
| Id.DrivesOfSorted | core/organo-sima/L3_cortex/id.js:82 | the impulses are sorted by non-increasing intensity |
| Id.DrivesOfHead | core/organo-sima/L3_cortex/id.js:85-90 | the dominant impulse is the head, or none for an empty list; conflict iff at least two impulses whose top intensities differ by less than 0.2 |
| Id.ReactionTo | core/organo-sima/L3_cortex/id.js:116-162 | indiferencia/0 iff no dominant impulse; distraccion/0.2 iff its tank is not affected; placer or displacer with intensity × drive intensity by valence; ambivalencia/0.5 otherwise |
| Id.Id.constructor | core/organo-sima/L3_cortex/id.js:51-54 | no cathexes and no active impulses |
| Id.Id.GenerateDrives | core/organo-sima/L3_cortex/id.js:61-91 | the drives of the levels, which also become the active impulses; the cathexes are untouched |
| Id.Id.InvestirCatexia | core/organo-sima/L3_cortex/id.js:98-101 | the symbol's cathexis becomes its old value (0 when absent) plus the charge |
| Id.Id.EvaluarEstimulo | core/organo-sima/L3_cortex/id.js:116-162 | the reaction to the stimulus given the freshly generated drives, which become the active impulses |
| Id.InvestLeavesOthers | core/organo-sima/L3_cortex/id.js:98-101 | investing one symbol leaves every other symbol's cathexis, and its presence, unchanged |
| Superego.Merge | core/organo-sima/L3_cortex/superego.js:205-207 | each norm group given in the update replaces the old one, the others are kept, and an empty update changes nothing |
| Superego.OnlyTwoRulesMatch | core/organo-sima/L3_cortex/superego.js:160-171 | only no_insultar with impulse 'atacar o huir' and no_abandonar with 'evitar esfuerzo' can match |
| Superego.Matched | core/organo-sima/L3_cortex/superego.js:93-101 | the collected prohibitions are at most the configured ones |
| Superego.MatchedSound | core/organo-sima/L3_cortex/superego.js:93-101 | every collected prohibition is configured, matched by the impulse, and on the right side of severity 0.7 |
| Superego.MatchedComplete | core/organo-sima/L3_cortex/superego.js:93-101 | every matched prohibition is collected as a violation when its severity exceeds 0.7 and as a warning otherwise |
| Superego.SeveritySumBounds | core/organo-sima/L3_cortex/superego.js:191-198 | a weighted sum of non-negative severities is non-negative |
| Superego.CulpaBounds | core/organo-sima/L3_cortex/superego.js:191-200 | guilt, 0.3·Σ violation severities + 0.1·Σ warning severities capped at 1, lies in [0,1] |
| Superego.SugerirDefensa | core/organo-sima/L3_cortex/superego.js:180-189 | sublimacion iff the drive is autodefensa, desplazamiento iff libidinal, racionalizacion otherwise |
| Superego.CensuraOf | core/organo-sima/L3_cortex/superego.js:88-120 | allowed iff no violation; a defense is required iff a violation or warning exists, and only then is one suggested (the drive's suggestion); guilt at most 1; shame always 0 |
| Superego.MatchedNone | core/organo-sima/L3_cortex/superego.js:93-101 | nothing is collected when no prohibition matches |
| Superego.CensuraBlocksIff | core/organo-sima/L3_cortex/superego.js:95-111 | the impulse is blocked iff some matched prohibition has severity above 0.7 |
| Superego.CensuraPartition | core/organo-sima/L3_cortex/superego.js:93-101 | a matched prohibition lands in exactly one of the violations (severity above 0.7) and the warnings |
| Superego.EmptyImpulseAllowed | core/organo-sima/L3_cortex/superego.js:160-171 | an impulse without a behaviour is allowed, needs no defense and carries no guilt (see also lines 107-119) |
| Superego.MechanismOf | core/organo-sima/L3_cortex/superego.js:39-70 | a name resolves to a mechanism exactly when it is one of the six mechanisms' names (see also lines 129-130) |
| Superego.DefenseOf | core/organo-sima/L3_cortex/superego.js:138-158 | the defense result carries the mechanism, its name and its prompt instruction |
| Superego.Superego.constructor | core/organo-sima/L3_cortex/superego.js:76-80 | the given norms and no active defenses |
| Superego.Superego.Censurar | core/organo-sima/L3_cortex/superego.js:88-120 | the loop returns the censure of the impulse under the current norms |
| Superego.Superego.ActivarDefensa | core/organo-sima/L3_cortex/superego.js:128-143 | an unknown mechanism gives none and changes nothing; a known one gives its defense and appends exactly one entry |
| Superego.Superego.ConfigurarNormas | core/organo-sima/L3_cortex/superego.js:205-207 | the norms become the merge of old and new |
| Superego.CalcularCulpa | core/organo-sima/L3_cortex/superego.js:191-200 | the two loops compute the guilt of the violations and warnings |
| Evaluation.QuotaBounds | core/organo-sima/L3_cortex/evaluation.js:37-81 | for levels in [0,100] all five quota components and the weighted total lie in [0,1] |
| Evaluation.ZeroIntegrity | core/organo-sima/L3_cortex/evaluation.js:41-64 | an integridad of exactly 0 reads as 100 in the `\|\| 100` terms while aggressive, which reads it raw, is 1 |
| Evaluation.EmotionVectorOf | core/organo-sima/L3_cortex/evaluation.js:116-138 | tension is the quota's total and the two sums are its libidinal and aggressive parts; a negative stimulus brings no pleasure; with a non-negative intensity a positive stimulus brings pleasure in [0.5, 1] and a negative one unpleasure in [0.3, 1]; with a quota in [0, 1] a positive stimulus's unpleasure stays within [0, 0.3], a neutral one's pleasure within [0.2, 0.5] and unpleasure within [0, 0.5]; the balance is at least 0.2 for a positive stimulus and at most −0.3 for a negative one |
| Evaluation.ZeroIntensityReadsAsHalf | core/organo-sima/L3_cortex/evaluation.js:118-122 | an intensity of 0 gives the same emotion as an intensity of 0.5 (`intensity \|\| 0.5`) |
| Evaluation.VectorBounds | core/organo-sima/L3_cortex/evaluation.js:116-138 | a quota in [0,1] and an intensity in [0,1] give every vector component in [0,1] |
| Evaluation.BasicBounds | core/organo-sima/L3_cortex/evaluation.js:181-209 | a vector in [0,1] and a threat in [0,1] give all six basic emotions in [0,1] |
| Evaluation.Entries | core/organo-sima/L3_cortex/evaluation.js:216-222 | the six candidates joy, anger, fear, sadness, surprise, disgust, none of them neutral |
| Evaluation.ScanMaxIsFirstMax | core/organo-sima/L3_cortex/evaluation.js:214-227 | the scan returns a maximum that is the first one, and neutral/0 exactly when no candidate is positive |
| Evaluation.DominantIsFirstMax | core/organo-sima/L3_cortex/evaluation.js:214-227 | neutral/0 iff every basic emotion is at most 0; otherwise the first maximum in joy, anger, fear, sadness, surprise, disgust order |
| Evaluation.GetDominant | core/organo-sima/L3_cortex/evaluation.js:214-227 | the loop returns the dominant basic emotion |
| Evaluation.ExtendedFrom | core/organo-sima/L3_cortex/evaluation.js:262-294 | guilt and shame are the superego's; gratitude is 0 without help and envy 0 unless the other has the desired object; pride and contempt are non-negative |
| Evaluation.ExtendedBounds | core/organo-sima/L3_cortex/evaluation.js:262-294 | with basic emotions, guilt and shame in [0,1] all extended emotions lie in [0,1] |
| Evaluation.FeelingFrom | core/organo-sima/L3_cortex/evaluation.js:331-360 | the value lies in [-1,1]; the intensity is the largest of \|value\|, tension and the dominant intensity; self-relevance 0.8 or 0.4 |
| Evaluation.Describe | core/organo-sima/L3_cortex/evaluation.js:364-375 | 'indiferente' exactly when intensity < 0.2, whatever the value; the extreme bands by intensity above 0.7 |
| Evaluation.EvaluationFixedTerms | core/organo-sima/L3_cortex/evaluation.js:420-430 | envy and surprise are always 0, gratitude is non-zero only for AFFECTION, disgust only for REJECTION |
| Evaluation.EvaluationBounds | core/organo-sima/L3_cortex/evaluation.js:410-449 | for levels in [0,100], intensity, guilt and shame in [0,1], every stage lies in [0,1] and the feeling's value in [-1,1] |
| Evaluation.DominantInUnit | core/organo-sima/L3_cortex/evaluation.js:214-227 | the dominant intensity of basic emotions in [0,1] lies in [0,1] |
| Evaluation.PsychicIntensity.constructor | core/organo-sima/L3_cortex/evaluation.js:20-31 | every stage starts at zero (see also lines 394-400) |
| Evaluation.PsychicIntensity.Evaluate | core/organo-sima/L3_cortex/evaluation.js:410-449 | the stored stages and the result are the evaluation of the levels, the stimulus, the superego state and the context |
| Modulators.ArousalOf | core/organo-sima/L3_cortex/modulators.js:139-150 | the arousal lies in [0,100] |
| Modulators.ArousalClosedForm | core/organo-sima/L3_cortex/modulators.js:139-150 | the loop's sum is Σ weight·(100 − level) with weights 0.4, 0.25, 0.2, 0.1, 0.05, clamped to [0,100] (see also lines 18-24) |
| Modulators.ArousalUnclamped | core/organo-sima/L3_cortex/modulators.js:139-150 | for levels in [0,100] the clamp never applies, since the weights sum to 1 |
| Modulators.ZeroReadsAsFifty | core/organo-sima/L3_cortex/modulators.js:144 | a tank at exactly 0 contributes as if it were at 50 |
| Modulators.CalculateArousal | core/organo-sima/L3_cortex/modulators.js:139-150 | the loop computes the arousal |
| Modulators.ResolutionOf | core/organo-sima/L3_cortex/modulators.js:156-163 | TUNNEL iff arousal ≥ 85, LOW iff in [70,85), MEDIUM iff in [50,70), HIGH iff below 50 |
| Modulators.ResolutionMonotone | core/organo-sima/L3_cortex/modulators.js:156-163 | a higher arousal never yields a finer resolution |
| Modulators.MaxTokens | core/organo-sima/L3_cortex/modulators.js:34-39 | the token budget is one of 200, 150, 80, 40 |
| Modulators.MaxTokensShrink | core/organo-sima/L3_cortex/modulators.js:34-39 | a coarser resolution has a strictly smaller token budget |
| Modulators.ThresholdOf | core/organo-sima/L3_cortex/modulators.js:168-180 | the threshold is 50, 70 or 80; 80 iff some need is critical; 70 iff none is and the dominant drive's intensity exceeds 0.7 |
| Modulators.FirstMoodIsFirst | core/organo-sima/L3_cortex/modulators.js:185-195 | neutral iff no pattern's condition holds; otherwise the first pattern in order whose condition holds |
| Modulators.MiedoOnlyMidArousal | core/organo-sima/L3_cortex/modulators.js:156-163 | fear can fire only when the arousal is in [70,85) (see also lines 53-54) |
| Modulators.DetectEmotion | core/organo-sima/L3_cortex/modulators.js:185-195 | the loop returns the detected mood |
| Modulators.VoiceModifier | core/organo-sima/L3_cortex/modulators.js:47-83 | every pattern has a non-empty voice modifier |
| Modulators.StateOf | core/organo-sima/L3_cortex/modulators.js:104-133 | the arousal lies in [0,100], the resolution is the arousal's, and the emotion data is the detected emotion |
| Modulators.PromptModifiersOf | core/organo-sima/L3_cortex/modulators.js:200-222 | focus 'alto' iff the threshold exceeds 60; the token budget of the resolution; no emotion instruction and no voice modifier before the first calculation |
| Modulators.Modulators.constructor | core/organo-sima/L3_cortex/modulators.js:89-96 | arousal 50, HIGH, threshold 50, neutral |
| Modulators.Modulators.Calculate | core/organo-sima/L3_cortex/modulators.js:104-133 | the new current state, which is also returned, is the state of the soma and the drives |
| Modulators.Modulators.Restore | core/organo-sima/L3_cortex/modulators.js:244-246 | a given state replaces the current one; none leaves it |
| PrimaryProcess.ThingRepresentative.constructor | core/organo-sima/L3_cortex/primary_process.js:24-30 | the given id and source, no cathexis and no associations |
| PrimaryProcess.ThingRepresentative.Invest | core/organo-sima/L3_cortex/primary_process.js:32-35 | the cathexis grows by the amount; associations unchanged |
| PrimaryProcess.ThingRepresentative.Associate | core/organo-sima/L3_cortex/primary_process.js:37-42 | the id is appended only when not yet associated, so associations never repeat |
| PrimaryProcess.CandidatesShape | core/organo-sima/L3_cortex/primary_process.js:66-128 | every candidate comes from a tank whose drive is active and is that tank's drive |
| PrimaryProcess.DrivesAreActive | core/organo-sima/L3_cortex/primary_process.js:66-131 | every listed drive is the drive of an active tank |
| PrimaryProcess.ThresholdRange | core/organo-sima/L3_cortex/primary_process.js:75-118 | the activation thresholds lie between 60 and 80 |
| PrimaryProcess.ActiveInCandidates | core/organo-sima/L3_cortex/primary_process.js:66-128 | an active tank's drive is among the candidates |
| PrimaryProcess.DriveForActiveTank | core/organo-sima/L3_cortex/primary_process.js:66-131 | every active tank has a drive in the list |
| PrimaryProcess.SortKeepsMembers | core/organo-sima/L3_cortex/primary_process.js:131 | sorting keeps every proposal |
| PrimaryProcess.ActiveTankForDrive | core/organo-sima/L3_cortex/primary_process.js:66-131 | a tank with a listed drive is active |
| PrimaryProcess.DriveCoverage | core/organo-sima/L3_cortex/primary_process.js:75-118 | a drive exists iff energia < 70, integridad < 80, afiliacion < 70 or competencia < 60 for its tank; certeza never drives |
| PrimaryProcess.DriveQuotas | core/organo-sima/L3_cortex/primary_process.js:76-127 | each drive's quota is (100 − level)/100; it is critical iff below 30, 40 or 25 for energia, integridad and afiliacion, never for competencia; unmodified, no guilt, no shame |
| PrimaryProcess.SortedStateShape | core/organo-sima/L3_cortex/primary_process.js:131-141 | over a sorted list: non-increasing quotas, the head as dominant (none iff empty), conflict iff two drives whose top quotas differ by less than 0.15 |
| PrimaryProcess.DriveOrder | core/organo-sima/L3_cortex/primary_process.js:131-141 | the drive list is sorted by non-increasing quota, its head is dominant, and conflict iff the top two differ by less than 0.15 |
| PrimaryProcess.DriveQuotaRange | core/organo-sima/L3_cortex/primary_process.js:82-125 | for non-negative levels every quota lies in (0.2, 1] |
| PrimaryProcess.TensionBound | core/organo-sima/L3_cortex/primary_process.js:141 | the total tension of quotas in (0.2, 1] lies between 0 and the number of drives |
| PrimaryProcess.DriveTension | core/organo-sima/L3_cortex/primary_process.js:141 | the total tension lies between 0 and the number of drives, and is 0 without drives |
| PrimaryProcess.DriveTrack.constructor | core/organo-sima/L3_cortex/primary_process.js:56-59 | no active drives |
| PrimaryProcess.DriveTrack.Process | core/organo-sima/L3_cortex/primary_process.js:66-143 | the drive state of the levels, whose drives become the active drives |
| PrimaryProcess.CollectDrives | core/organo-sima/L3_cortex/primary_process.js:67-128 | the four threshold tests yield exactly the drive candidates, in tank order |
| PrimaryProcess.TotalTension | core/organo-sima/L3_cortex/primary_process.js:141 | the reduction sums the quotas |
| PrimaryProcess.CathexisBounds | core/organo-sima/L3_cortex/primary_process.js:229-240 | the perception's cathexis is 0.7, −0.7 or 0 by valence, plus half the dominant quota when the dominant tank is affected; so it lies in [−0.7, 1.2] |
| PrimaryProcess.WarningsIff | core/organo-sima/L3_cortex/primary_process.js:203-212 | a concept is warned about iff it is repressed and occurs in the normalized input |
| PrimaryProcess.PerceptionTrack.constructor | core/organo-sima/L3_cortex/primary_process.js:182-185 | no repressions and no perceptions |
| PrimaryProcess.PerceptionTrack.Process | core/organo-sima/L3_cortex/primary_process.js:193-256 | the perception state of the stimulus; the current perceptions become the one environment perception; repressions unchanged |
| PrimaryProcess.PerceptionTrack.AddPrimalRepression | core/organo-sima/L3_cortex/primary_process.js:262-264 | the lower-cased concept joins the repressions, at most once |
| PrimaryProcess.AddAll | core/organo-sima/L3_cortex/primary_process.js:545-551 | restoring adds exactly the lower-cased concepts and keeps the repressions free of duplicates |
| PrimaryProcess.ApplyDefenseSpec | core/organo-sima/L3_cortex/primary_process.js:348-405 | no defense keeps the proposal; represion drops it; every other defense marks it modified with its name and changes only its own field (aim/object, object, rationalization, target or intensity) |
| PrimaryProcess.DefenseAgainst | core/organo-sima/L3_cortex/primary_process.js:297-308 | a defense is raised iff the censor blocks the proposal, and it is the censor's suggestion |
| PrimaryProcess.OutcomeCases | core/organo-sima/L3_cortex/primary_process.js:303-329 | an allowed proposal passes once and leaves no record; a blocked one leaves exactly one record and one superego entry |
| PrimaryProcess.RecordsIff | core/organo-sima/L3_cortex/primary_process.js:303-314 | one record per superego entry, and no records iff every proposal is allowed |
| PrimaryProcess.KeptWhenAllowed | core/organo-sima/L3_cortex/primary_process.js:321-329 | when every proposal is allowed each passes in order with the censor's guilt and shame |
| PrimaryProcess.OtherAimsAllowed | core/organo-sima/L3_cortex/primary_process.js:297-329 | a proposal whose aim is neither censored behaviour passes unmodified with no guilt and no shame |
| PrimaryProcess.HarmlessPass | core/organo-sima/L3_cortex/primary_process.js:289-343 | harmless, clean proposals all pass unchanged and raise no defense |
| PrimaryProcess.DriveIsHarmless | core/organo-sima/L3_cortex/primary_process.js:80-123 | every drive's aim is harmless to the censor (see also lines 297-301) |
| PrimaryProcess.DrivesAreHarmless | core/organo-sima/L3_cortex/primary_process.js:66-131 | every listed drive is harmless, unmodified and guilt- and shame-free |
| PrimaryProcess.DrivesNeverCensored | core/organo-sima/L3_cortex/primary_process.js:297-301 | under any norms no drive is ever blocked: no records, no superego entries, and every drive passes unchanged |
| PrimaryProcess.ProactiveShape | core/organo-sima/L3_cortex/primary_process.js:411-433 | at most one proactive proposal per ideal, each from an ideal with weight above 0.6 |
| PrimaryProcess.DefaultProactive | core/organo-sima/L3_cortex/primary_process.js:411-433 | under the default ideals only ser_util (draw below 0.14) and ser_autentico (draw below 0.16) can propose |
| PrimaryProcess.DefenseTrack.constructor | core/organo-sima/L3_cortex/primary_process.js:277-281 | the given superego, no defenses, no proposals |
| PrimaryProcess.DefenseTrack.Filter | core/organo-sima/L3_cortex/primary_process.js:289-343 | the proposals are the kept ones plus the proactive ones; the defenses and the superego's active defenses are the records of blocked proposals; a defense is active iff some record exists |
| PrimaryProcess.DefenseTrack.FilterOne | core/organo-sima/L3_cortex/primary_process.js:293-330 | one proposal's outcome, record and superego entry are appended |
| PrimaryProcess.NameRoundTrip | core/organo-sima/L3_cortex/primary_process.js:351-404 | a mechanism's name resolves back to that mechanism (see also line 129) |
| PrimaryProcess.BlockedCase | core/organo-sima/L3_cortex/primary_process.js:303-320 | a blocked proposal gets the suggested defense, is rewritten (or dropped) by it, and is recorded with the violations |
| PrimaryProcess.AllowedCase | core/organo-sima/L3_cortex/primary_process.js:321-329 | an allowed proposal passes unmodified with the censor's guilt and shame and leaves no record |
| PrimaryProcess.FilterStep | core/organo-sima/L3_cortex/primary_process.js:293-330 | filtering one more proposal appends its outcome, record and entry |
| PrimaryProcess.GenerateProactive | core/organo-sima/L3_cortex/primary_process.js:411-433 | the loop returns the proactive proposals for the random draws |
| PrimaryProcess.PrimaryOfParts | core/organo-sima/L3_cortex/primary_process.js:459-516 | the process result is assembled from the drives, the perception, the evaluation and the filter result |
| PrimaryProcess.PrimaryNeverDefends | core/organo-sima/L3_cortex/primary_process.js:473-479 | the primary process never raises a defense, passes the drives on unchanged plus proactive proposals, and evaluates with no guilt and no shame (see also lines 297-301) |
| PrimaryProcess.PrimaryProcess.constructor | core/organo-sima/L3_cortex/primary_process.js:442-450 | fresh tracks with the given superego, no repressions and no last result |
| PrimaryProcess.PrimaryProcess.Perceive | core/organo-sima/L3_cortex/primary_process.js:463-468 | the drive state of the levels and the perception of the stimulus |
| PrimaryProcess.PrimaryProcess.Judge | core/organo-sima/L3_cortex/primary_process.js:473-488 | the evaluation with zero guilt and shame and the filter's proposals and defenses |
| PrimaryProcess.PrimaryProcess.Process | core/organo-sima/L3_cortex/primary_process.js:459-516 | the result is the primary-process result of the levels, stimulus, repressions and norms, and it is stored as the last result |
| PrimaryProcess.PrimaryProcess.AddPrimalRepression | core/organo-sima/L3_cortex/primary_process.js:522-524 | the lower-cased concept joins the repressions, at most once |
| PrimaryProcess.PrimaryProcess.GetTopProposals | core/organo-sima/L3_cortex/primary_process.js:530-536 | nothing without a last result; else the stored proposals are sorted in place by non-increasing quota and the first limit are returned |
| PrimaryProcess.PrimaryProcess.Restore | core/organo-sima/L3_cortex/primary_process.js:545-551 | every saved concept is added as a repression |
| PrimaryProcess.TopProposalsLargest | core/organo-sima/L3_cortex/primary_process.js:530-536 | every returned proposal's quota is at least that of every proposal left out |
| SecondaryProcess.WordRepresentative.constructor | core/organo-sima/L3_cortex/secondary_process.js:23-30 | the given word and feeling, neither conscious nor self-referent |
| SecondaryProcess.WordRepresentative.MakeConscious | core/organo-sima/L3_cortex/secondary_process.js:36-41 | the feeling and self reference are set, and it is conscious iff the feeling is non-zero and the self is activated |
| SecondaryProcess.WordFor | core/organo-sima/L3_cortex/secondary_process.js:188-201 | the word of a mapped aim from the table, or the aim itself when unmapped |
| SecondaryProcess.TrialAction.constructor | core/organo-sima/L3_cortex/secondary_process.js:51-60 | no checks, no outcome and zero scores |
| SecondaryProcess.TrialAction.Simulate | core/organo-sima/L3_cortex/secondary_process.js:67-104 | causality passes iff aim and object are non-empty, reality iff the aim is conversational or the proposal is proactive; both passing: pleasure 0.8·quota and unpleasure the guilt, else 0 and 0.3; net is their difference |
| SecondaryProcess.TrialNetRange | core/organo-sima/L3_cortex/secondary_process.js:85-93 | with quota and guilt in [0,1] the net lies in [−1, 0.8]; a failing trial nets −0.3, a passing one 0.8·quota − guilt |
| SecondaryProcess.PassingOutranksFailing | core/organo-sima/L3_cortex/secondary_process.js:85-93 | a passing trial with guilt below 0.3 outscores any failing one |
| SecondaryProcess.WordsOf | core/organo-sima/L3_cortex/secondary_process.js:154 | each proposal gets its own desire, in order |
| SecondaryProcess.TrialsOf | core/organo-sima/L3_cortex/secondary_process.js:171-175 | each of the top desires gets its simulated trial, numbered in order |
| SecondaryProcess.SelectedIff | core/organo-sima/L3_cortex/secondary_process.js:159-162 | a desire is selected iff its proposal is viable: feeling intensity above 0.1 or critical urgency |
| SecondaryProcess.SelectionShape | core/organo-sima/L3_cortex/secondary_process.js:147-183 | the desires are sorted by non-increasing quota and the trials are the simulations of the first (at most) three |
| SecondaryProcess.DesireSelectionTrack.constructor | core/organo-sima/L3_cortex/secondary_process.js:136-139 | no desires and no trials |
| SecondaryProcess.DesireSelectionTrack.Process | core/organo-sima/L3_cortex/secondary_process.js:147-183 | the selection of the proposals, stored as the selected desires and trials |
| SecondaryProcess.SimulateTop | core/organo-sima/L3_cortex/secondary_process.js:171-175 | the loop returns the trials of the top desires |
| SecondaryProcess.WinnerIsBest | core/organo-sima/L3_cortex/secondary_process.js:242-254 | the winner is a trial; the best passing trial when one passes, else the best trial overall |
| SecondaryProcess.WinnerIsEarliestBest | core/organo-sima/L3_cortex/secondary_process.js:242-254 | the winner is the trial at a position holding, among the passing trials (all trials when none passes), the largest net score with no earlier trial scoring as much: the stable sort breaks ties by order |
| SecondaryProcess.WinnerAmongPassing | core/organo-sima/L3_cortex/secondary_process.js:242-254 | when some trial passes, the winner is the earliest passing trial with the largest net score among passing trials |
| SecondaryProcess.WinnerAmongAll | core/organo-sima/L3_cortex/secondary_process.js:242-254 | when no trial passes, the winner is `sortedTrials[0]`: the earliest trial with the largest net score |
| SecondaryProcess.WinnerPositionUnique | core/organo-sima/L3_cortex/secondary_process.js:242-254 | at most one position satisfies the winning rule, so the rule fixes the winner |
| SecondaryProcess.ModeOf | core/organo-sima/L3_cortex/secondary_process.js:295-312 | DEFENSE_MEDIATED iff a defense was applied, else EMOTIONALLY_CHARGED iff \|feeling\| > 0.7, else REALITY_ADAPTED iff both checks pass, else STANDARD |
| SecondaryProcess.BehaviorOf | core/organo-sima/L3_cortex/secondary_process.js:317-330 | the mapped behaviour of the aim, and 'conversar_normal' exactly for unmapped aims |
| SecondaryProcess.DecisionPicksBest | core/organo-sima/L3_cortex/secondary_process.js:233-290 | no trials give the default decision; otherwise the decision is the aim, object, mode, behaviour, scores and defense, with the trial count, of the trial at the unique winning position: the earliest best passing trial, or the earliest best trial when none passes (see also lines 332-345) |
| SecondaryProcess.ActionDecisionTrack.constructor | core/organo-sima/L3_cortex/secondary_process.js:222-225 | no decision and no history |
| SecondaryProcess.ActionDecisionTrack.Decide | core/organo-sima/L3_cortex/secondary_process.js:233-290 | the decision is stored as last; only a non-empty trial list appends to the history, capped at 50 with the oldest evicted |
| SecondaryProcess.FeedbackCathexis | core/organo-sima/L3_cortex/secondary_process.js:392-400 | the feedback's cathexis is the winner's net score (its confidence), and 0.3 for the default decision, whose confidence is 0.5 |
| SecondaryProcess.TransformationTrack.constructor | core/organo-sima/L3_cortex/secondary_process.js:361-363 | an empty feedback queue |
| SecondaryProcess.TransformationTrack.ReceiveFeedback | core/organo-sima/L3_cortex/secondary_process.js:392-410 | the decision's feedback is appended, capped at 20 with the oldest evicted |
| SecondaryProcess.InstructionsOf | core/organo-sima/L3_cortex/secondary_process.js:495-536 | the four fixed lines in order (emotion, feeling, mode, conduct), a defense line iff a defense was applied, a low-confidence note iff confidence < 0.3 |
| SecondaryProcess.UndefendedProposalsGiveUndefendedDecision | core/organo-sima/L3_cortex/secondary_process.js:270-299 | proposals without a defense never give a defense-mediated decision |
| SecondaryProcess.NeverDefenseMediated | core/organo-sima/L3_cortex/secondary_process.js:440-490 | after the primary process, the decision is never defense-mediated and no defense line is ever written |
| SecondaryProcess.UndefendedProposals | core/organo-sima/L3_cortex/secondary_process.js:440-451 | the drives and proactive proposals carry no defense |
| SecondaryProcess.SecondaryProcess.constructor | core/organo-sima/L3_cortex/secondary_process.js:427-433 | fresh tracks, empty history and feedback, no last result |
| SecondaryProcess.SecondaryProcess.Process | core/organo-sima/L3_cortex/secondary_process.js:440-490 | the secondary result of the primary result; the selection, the last decision, the history and the feedback queue are updated as the tracks say |
| SecondaryProcess.SecondaryProcess.Restore | core/organo-sima/L3_cortex/secondary_process.js:552-559 | the saved history and feedback queue, when given, replace the current ones |
| Memory.Concepts | core/organo-sima/hippocampus/memory.js:16 | the concepts of the markers, in order |
| Memory.IndexOf | core/organo-sima/hippocampus/memory.js:44 | the first position of a key, and none exactly when the key is absent (see also line 105) |
| Memory.Get | core/organo-sima/hippocampus/memory.js:92 | a stored marker with the key, and none exactly when no marker has it (see also lines 44 and 105) |
| Memory.GetUnique | core/organo-sima/hippocampus/memory.js:16 | with unique keys, looking up a stored marker's key finds that marker |
| Memory.GetIff | core/organo-sima/hippocampus/memory.js:16 | with unique keys, a lookup finds a marker iff it is stored under that key |
| Memory.ValenceOf | core/organo-sima/hippocampus/memory.js:121-137 | −0.8 if integridad fell by more than 10, else 0.6 if afiliacion rose by more than 5, else −0.5 if energia fell by more than 15, else the total change over 50 clamped; always in [−1,1] |
| Memory.Reinforced | core/organo-sima/hippocampus/memory.js:46-51 | the valence becomes the average of old and new (so between them), the strength min(1, strength + 0.2), one more occurrence, updated now; the rest kept |
| Memory.StoreEffect | core/organo-sima/hippocampus/memory.js:44-64 | storing a marker under its key keeps keys unique, finds it under its key, leaves every other key alone, keeps the old order and adds one entry only for a new key |
| Memory.RegisterEffect | core/organo-sima/hippocampus/memory.js:38-65 | a known lower-cased, trimmed concept is reinforced; a new one is created with strength 0.5 and one occurrence; no other marker changes |
| Memory.PreloadEffect | core/organo-sima/hippocampus/memory.js:70-83 | the concept is stored with the given valence, its strength (0.5 when missing or 0) and one occurrence, replacing any old marker; no other marker changes |
| Memory.ScanFinds | core/organo-sima/hippocampus/memory.js:100-115 | a marker is found iff it is stored, stronger than 0.3 and one of the text's words, and it is found once per occurrence of its word; the result is sorted by non-increasing absolute valence |
| Memory.HitsCount | core/organo-sima/hippocampus/memory.js:104-108 | each occurrence of a stored marker's key among the words pushes that marker once, provided it is stronger than 0.3 |
| Memory.Keywords | core/organo-sima/hippocampus/memory.js:186-195 | at most 5 keywords, each longer than 3 UTF-16 code units (the `length` JavaScript measures) and none a stopword |
| Util.Utf16Length | core/organo-sima/hippocampus/memory.js:193 | a string's `length` in UTF-16 code units: between its number of characters and twice that, two units for a character outside the Basic Multilingual Plane (Util.Utf16LengthAstral) and exactly one per character inside it (Util.Utf16LengthBmp) |
| Memory.EmojiPairIsKeyword | core/organo-sima/hippocampus/memory.js:193 | two emoji outside the Basic Multilingual Plane make a keyword, as their JavaScript length is 4 |
| Memory.StopwordsAreShort | core/organo-sima/hippocampus/memory.js:188 | every stopword measures at most 3 UTF-16 code units |
| Memory.KeywordsAreLongWords | core/organo-sima/hippocampus/memory.js:186-195 | the keywords are the first 5 words longer than 3 UTF-16 code units; the stopword test never removes one, since every stopword measures at most 3 |
| Memory.RegisterAllStep | core/organo-sima/hippocampus/memory.js:160-162 | registering one more keyword registers it on the markers left by the earlier ones |
| Memory.RegisterAllEffect | core/organo-sima/hippocampus/memory.js:158-163 | after the episode every keyword has a marker, keys stay unique, and no other marker changes |
| Memory.RelatedEpisodes | core/organo-sima/hippocampus/memory.js:176-181 | exactly the episodes whose input contains the concept, ignoring case |
| Memory.DecayKeepsKeys | core/organo-sima/hippocampus/memory.js:204-219 | decay keeps keys unique and introduces no concept |
| Memory.DecayEffect | core/organo-sima/hippocampus/memory.js:204-219 | a surviving marker is an old one whose strength dropped by 0.1 per day since its update and is still at least 0.1; every marker that stays at least 0.1 survives |
| Memory.StrongestIsExtreme | core/organo-sima/hippocampus/memory.js:237-251 | none iff no marker has the sign's valence; otherwise the first marker with the largest (or, for sign −1, the smallest) valence |
| Memory.StrongestPositive | core/organo-sima/hippocampus/memory.js:237-251 | the positive search: none iff no valence is positive; otherwise the first marker with the largest valence |
| Memory.StrongestNegative | core/organo-sima/hippocampus/memory.js:237-251 | the negative search: none iff no valence is negative; otherwise the first marker with the smallest valence |
| Memory.Memory.constructor | core/organo-sima/hippocampus/memory.js:14-24 | no markers and no episodes |
| Memory.Memory.RegisterSomaticMarker | core/organo-sima/hippocampus/memory.js:38-65 | the markers become the registration of the concept; episodes unchanged; keys stay unique |
| Memory.Memory.PreloadMarker | core/organo-sima/hippocampus/memory.js:70-83 | the markers become the preload of the concept; episodes unchanged |
| Memory.Memory.CheckSomaticMarker | core/organo-sima/hippocampus/memory.js:90-93 | the marker stored under the lower-cased, trimmed concept, and none exactly when there is none |
| Memory.Memory.ScanForMarkers | core/organo-sima/hippocampus/memory.js:100-115 | the loop and sort return the scan of the text |
| Memory.Memory.RegisterKeywords | core/organo-sima/hippocampus/memory.js:158-162 | the keyword loop: the markers become the registration of every keyword in order, and the episode log is unchanged |
| Memory.Memory.RecordEpisode | core/organo-sima/hippocampus/memory.js:146-164 | the stamped episode is appended with at most 100 kept, the oldest evicted first; its keywords are registered as markers |
| Memory.Memory.GetRecentEpisodes | core/organo-sima/hippocampus/memory.js:169-171 | `slice(-limit)`: the suffix of the episodes that is limit long, or all of them when the limit is 0 or exceeds the count |
| Memory.Memory.ApplyDecay | core/organo-sima/hippocampus/memory.js:204-219 | the markers become their decayed and pruned versions; episodes unchanged |
| Memory.Memory.GetStrongestMarker | core/organo-sima/hippocampus/memory.js:237-251 | the loop returns the strongest marker of the sign |
| Memory.Memory.GetState | core/organo-sima/hippocampus/memory.js:228-235 | the markers, the episode count and the strongest positive and negative markers |
| Ego.FirstWarning | core/organo-sima/L3_cortex/ego.js:173-191 | none iff no word of the input has a marker with valence below −0.5; otherwise the first such word, with its marker's valence |
| Ego.FinalDecisionOf | core/organo-sima/L3_cortex/ego.js:196-244 | a warning below −0.7 gives somatic avoidance by memory; else arousal ≥ 85 gives the pure primary mode with the dominant drive's aim (or 'evitar'); else an active defense gives the superego's mode; else the secondary decision; each an if-and-only-if |
| Ego.MaxTokensOf | core/organo-sima/L3_cortex/ego.js:290-306 | the resolution's budget, cut to the floor of 70% when a defense was applied |
| Ego.VoiceOf | core/organo-sima/L3_cortex/ego.js:311-325 | the calm tone exactly for the neutral emotion |
| Ego.Lifted | core/organo-sima/L3_cortex/ego.js:253-255 | the secondary lines, in order |
| Ego.EgoInstructionsOf | core/organo-sima/L3_cortex/ego.js:249-285 | the secondary lines first; an emotion line iff none is there; the high-arousal line iff arousal > 70 and the low one iff < 30; the somatic alert iff warned; the final conduct last iff no conduct line is there |
| Ego.Appended | core/organo-sima/L3_cortex/ego.js:122-133 | the entry is appended and at most the last 100 are kept |
| Ego.LastOutcome | core/organo-sima/L3_cortex/ego.js:330-334 | none without history; else positive, negative or neutral by the sign of the last feeling |
| Ego.UndefendedResult | core/organo-sima/L3_cortex/ego.js:196-244 | without an active defense the final mode is neither defense mode, no defense is applied and the token budget is the resolution's (see also lines 290-306) |
| Ego.NeverDefends | core/organo-sima/L3_cortex/ego.js:58-168 | the ego never takes the defense path: no defense mode, no applied defense, and the resolution's token budget |
| Ego.FinalConductNeverInstructed | core/organo-sima/L3_cortex/ego.js:249-285 | the secondary instructions always carry a conduct line and an emotion line, so the ego never adds its own (see also lines 495-536) |
| Ego.Ego.constructor | core/organo-sima/L3_cortex/ego.js:29-43 | fresh components sharing one superego with the default norms, no repressions, no history |
| Ego.Ego.RunPrimary | core/organo-sima/L3_cortex/ego.js:65-76 | the primary result for the levels, the stimulus, the repressions and the norms, with the last outcome of the history; the primary process keeps it as its last result, its repressions and norms stay, and the secondary's decision log and feedback queue are untouched |
| Ego.Ego.RunSecondary | core/organo-sima/L3_cortex/ego.js:87-90 | the secondary result of the primary result; the secondary process keeps it as its last result, logs its decision (capped) only when there were trial actions, queues the decision's feedback (capped), and leaves the primary process, its repressions and its norms untouched |
| Ego.Ego.Modulate | core/organo-sima/L3_cortex/ego.js:95-96 | the modulator state of the soma and the id's drives; the modulators now hold that state, the id's active drives are the drives of the tanks and its cathexes stay, and both processes are untouched |
| Ego.Ego.RunPhases | core/organo-sima/L3_cortex/ego.js:65-96 | the three phases in order: the primary result with the history's last outcome, the secondary result of it, the modulator state of the soma and its drives; `PartsAfter` holds for them against the repressions, norms, decision log and feedback queue before the call |
| Ego.Ego.Log | core/organo-sima/L3_cortex/ego.js:121-133 | the history gains the entry and keeps its last 100; the id, the modulators and both processes are untouched |
| Ego.Ego.Process | core/organo-sima/L3_cortex/ego.js:58-168 | the result is the ego result of the soma, stimulus, markers, repressions, norms and history; the history gains one entry, capped at 100; `PartsAfter`: the id's drives, the modulators' state, both processes' last results, the secondary's decision log and feedback queue are those of this turn, and the repressions and norms are unchanged |
| Ego.Ego.GetDecisionHistory | core/organo-sima/L3_cortex/ego.js:346-348 | `slice(-limit)`: a suffix of the history, all of it when limit is 0 or at least the history's length, otherwise exactly limit entries |
| SecondaryProcess.ActionDecisionTrack.GetHistory | core/organo-sima/L3_cortex/secondary_process.js:347-349 | `slice(-limit)`: the suffix of the decision log that is limit long, or all of it when the limit is 0 or exceeds the count |
| SecondaryProcess.SecondaryProcess.GetDecisionHistory | core/organo-sima/L3_cortex/secondary_process.js:541-543 | the action track's log cut the same way |
| Ego.Ego.AddPrimalRepression | core/organo-sima/L3_cortex/ego.js:339-341 | the lower-cased concept joins the primary repressions, at most once |
| PsiOrgan.Damaged | core/organo-sima/index.js:160-168 | damage keeps the tanks in range, leaves energia and competencia alone and raises no tank |
| PsiOrgan.Comforted | core/organo-sima/index.js:163-180 | affection keeps the tanks in range, leaves energia and competencia alone and lowers no tank |
| PsiOrgan.Confused | core/organo-sima/index.js:169-175 | confusion keeps the tanks in range, leaves energia and competencia alone and raises no tank |
| PsiOrgan.StimulusEffect | core/organo-sima/index.js:156-182 | the tanks after a stimulus, a zero intensity read as 0.5: in range, energia and competencia untouched, no tank raised by a hurtful stimulus and none lowered by a friendly one |
| PsiOrgan.SomaChangeOf | core/organo-sima/index.js:198-204 | each tank minus its baseline, which is the negated deficit the soma reports for it |
| PsiOrgan.EpisodeValence | core/organo-sima/index.js:187-206 | the valence memory gives the recorded episode: −0.8 once integridad is below 90, else 0.6 when afiliacion is above 75, else −0.5 when energia is below 85 |
| PsiOrgan.EpisodeOf | core/organo-sima/index.js:187-206 | the episode carries the input, the stimulus type and valence, the ego's emotion, mode and applied defense, and the soma change of the tanks |
| PsiOrgan.ReportOf | core/organo-sima/index.js:122-146 | the reply carries the ego's token budget, mode and the tanks; an arousal of 0 reads as 50 and an empty behaviour as 'conversar_normal'; defenseActive is the primary process's flag |
| PsiOrgan.OrganNeverDefends | core/organo-sima/index.js:93-151 | no reply reports an active defense or the defense mode, none has its token budget cut and no episode records a defense |
| PsiOrgan.SpontaneousReasonOf | core/organo-sima/index.js:293-331 | the reason to speak unprompted, by priority: afiliacion below 20, then energia below 15, then integridad below 30; none iff all three hold up |
| PsiOrgan.ActionFor | core/organo-sima/index.js:293-331 | the action keeps its reason; medium urgency iff energia is the reason; the libidinal source iff afiliacion is |
| PsiOrgan.SpontaneousOnlyWhenCritical | core/organo-sima/index.js:293-331 | the organ only speaks unprompted about a tank the soma reports among its critical needs |
| PsiOrgan.PreloadDataOf | core/organo-sima/index.js:252-281 | a missing or zero valence becomes the list's default, a missing or zero strength 0.6 |
| PsiOrgan.LoadedKeys | core/organo-sima/index.js:252-281 | after preloading, the marker keys stay unique and every object item's concept has a marker |
| PsiOrgan.LoadedKeepsOthers | core/organo-sima/index.js:252-281 | preloading leaves the marker of every key no item names unchanged |
| PsiOrgan.PsiOrgan.constructor | core/organo-sima/index.js:32-72 | the soma starts at the configured levels or their defaults, and the configured markers are preloaded, positive then negative |
| PsiOrgan.PsiOrgan.LoadList | core/organo-sima/index.js:252-281 | the markers become those preloaded from the list, the episodes stay |
| PsiOrgan.PsiOrgan.LoadMarkers | core/organo-sima/index.js:252-281 | the positive list is preloaded with default valence 0.7, then the negative one with −0.7 |
| PsiOrgan.PsiOrgan.ApplyStimulusToSoma | core/organo-sima/index.js:156-182 | the tanks become the stimulus effect of the old tanks |
| PsiOrgan.PsiOrgan.Deliberate | core/organo-sima/index.js:104-108 | the ego result is `Ego.EgoOf` of the soma state of the current tanks, the stimulus, the memory's markers, the primal repressions, the norms and the decision history before the call; it applies no defense, keeps the resolution's token budget, and the history gains its entry; the memory is untouched and the ego's parts are left as `Ego.Ego.PartsAfter` describes for this turn |
| PsiOrgan.PsiOrgan.ConsultEgo | core/organo-sima/index.js:104-108 | the ego result is `Ego.EgoOf` of the given soma state, stimulus and markers and of the ego's state before the call; the history gains its entry, the ego's parts are left as `PartsAfter` describes, and the memory is untouched |
| PsiOrgan.PsiOrgan.RecordExperience | core/organo-sima/index.js:187-206 | memory records the episode: it is pushed onto the bounded list and its markers are updated |
| PsiOrgan.PsiOrgan.Settle | core/organo-sima/index.js:111-120 | the experience is recorded on the tanks before the action's cost, then energia pays it, and the time of the last process is now; the ego's parts are untouched, so what `PartsAfter` said of them still holds, and the reply is the report of the ego result with the consumed tanks |
| PsiOrgan.PsiOrgan.Sense | core/organo-sima/index.js:95-101 | the soma ticks to now, the input is perceived and the stimulus applied to the decayed tanks |
| PsiOrgan.PsiOrgan.Respond | core/organo-sima/index.js:104-151 | deliberation, recording and consumption in order: the ego result is `Ego.EgoOf` of the current tanks and the state before the call, the episode is built from that result, and the reply is the report of that result with the consumed tanks; the ego's parts are left as `PartsAfter` describes for this turn |
| PsiOrgan.PsiOrgan.Process | core/organo-sima/index.js:93-151 | the whole turn: tick, perception, stimulus, ego, episode, action cost; the ego result is `Ego.EgoOf` of the tanks the stimulus left and of the markers, repressions, norms and history before the turn, and the reply and the episode are built from it; the reply never shows an active defense and keeps the resolution's budget; the modulators hold the turn's modulator state, the id the drives of the tanks the ego saw, both processes their results of this turn, the secondary its decision log and feedback queue after this turn, and the repressions and norms are unchanged (`Ego.Ego.PartsAfter`) |
| PsiOrgan.PsiOrgan.CheckSpontaneousBehavior | core/organo-sima/index.js:293-331 | the soma ticks to now and the action is the one its new tanks call for |
| PsiOrgan.PsiOrgan.RegisterFeedback | core/organo-sima/index.js:341-343 | success adds the success boost to competencia and 5 to certeza; failure takes the failure damage and 3, clamped |
| PsiOrgan.PsiOrgan.Recharge | core/organo-sima/index.js:348-350 | energia gains the amount, 30 by default, clamped |
| PsiOrgan.PsiOrgan.AddPrimalRepression | core/organo-sima/index.js:356-358 | the lower-cased concept joins the primal repressions, at most once |
| PsiOrgan.PsiOrgan.GetFullState | core/organo-sima/index.js:367-377 | the snapshot describes the soma, the modulators, the last ten decisions and the memory (its markers, episode count and strongest positive and negative markers), with the organ's version |
| HomeostaticMiddleware.MatchingExactly | core/organo-sima/L1_hypothalamus/homeostatic-middleware.js:132-137 | a keyword is matched iff it is in the list and present in the stimulus text |
| HomeostaticMiddleware.ImpactOf | core/organo-sima/L1_hypothalamus/homeostatic-middleware.js:119-189 | no matched keyword gives no impact at all; the impact is zero iff nothing matched, negative exactly when it carries an emotional signal, and non-negative iff no frustration keyword is present |
| HomeostaticMiddleware.DrainIsPower | core/organo-sima/L1_hypothalamus/homeostatic-middleware.js:181-186 | the drain factor is 1.2 raised to the number of drain keywords present |
| HomeostaticMiddleware.PowAtLeastOne | core/organo-sima/L1_hypothalamus/homeostatic-middleware.js:181-186 | drains never slow the decay: the factor is at least 1 |
| HomeostaticMiddleware.ImpactAmounts | core/organo-sima/L1_hypothalamus/homeostatic-middleware.js:156-186 | accessible stimuli raise the tank by 5 per match; frustrated ones lower it by 3 per match, doubled below level 40, speed decay by 1.3 and signal a frustration of the impact's size; drains multiply the decay modifier |
| HomeostaticMiddleware.MatchKeywords | core/organo-sima/L1_hypothalamus/homeostatic-middleware.js:132-137 | the loop collects exactly the matching keywords, in list order |
| HomeostaticMiddleware.IsAccessible | core/organo-sima/L1_hypothalamus/homeostatic-middleware.js:144-150 | accessible iff no frustration keyword is present |
| HomeostaticMiddleware.ApplyDrains | core/organo-sima/L1_hypothalamus/homeostatic-middleware.js:181-186 | the loop's factor is the drain product and its notes are the present drain keywords |
| HomeostaticMiddleware.EvaluateTankImpact | core/organo-sima/L1_hypothalamus/homeostatic-middleware.js:119-189 | the step-by-step evaluation yields the impact of the tank |
| HomeostaticMiddleware.FlattenStimuli | core/organo-sima/L1_hypothalamus/homeostatic-middleware.js:236-244 | the items of every list category, in order, skipping non-lists |
| HomeostaticMiddleware.FlattenKeepsItems | core/organo-sima/L1_hypothalamus/homeostatic-middleware.js:236-244 | a word is in the flattened stimuli iff some list category holds it |
| HomeostaticMiddleware.ResultsOf | core/organo-sima/L1_hypothalamus/homeostatic-middleware.js:90-97 | one result per configured tank, each the impact of that tank at its current level (50 when missing) |
| HomeostaticMiddleware.InjectionLines | core/organo-sima/L1_hypothalamus/homeostatic-middleware.js:216-231 | the header, one warning line per signal in order, a blank line and the closing line |
| HomeostaticMiddleware.BuildPromptInjection | core/organo-sima/L1_hypothalamus/homeostatic-middleware.js:216-231 | no injection iff there are no signals; otherwise the injection lines |
| HomeostaticMiddleware.SignalsOf | core/organo-sima/L1_hypothalamus/homeostatic-middleware.js:74-114 | without a snapshot or stimuli, no modifiers, signals or injection; an injection iff some signal was raised |
| HomeostaticMiddleware.ScanTanks | core/organo-sima/L1_hypothalamus/homeostatic-middleware.js:90-106 | the loop keeps the modifiers of tanks with a non-zero impact and collects the signals in tank order |
| HomeostaticMiddleware.ProcessSnapshot | core/organo-sima/L1_hypothalamus/homeostatic-middleware.js:74-114 | the snapshot's signals |
| HomeostaticMiddleware.ModifiersExactly | core/organo-sima/L1_hypothalamus/homeostatic-middleware.js:99-101 | a tank has a modifier iff some result for it has a non-zero impact, and every kept modifier has one |
| HomeostaticMiddleware.SignalsHaveModifiers | core/organo-sima/L1_hypothalamus/homeostatic-middleware.js:99-105 | every signal has a positive intensity and its tank has a modifier |
| HomeostaticMiddleware.SnapshotSignalsHaveModifiers | core/organo-sima/L1_hypothalamus/homeostatic-middleware.js:74-114 | in every snapshot's result each emotional signal is positive and its tank carries a modifier |
| Zeitgeist.FirstActive | core/organo-sima/umwelt/zeitgeist.js:53-84 | the first event, in configuration order, whose dates, weekday and hours all admit the moment; none iff no event does |
| Zeitgeist.DetectActiveEvent | core/organo-sima/umwelt/zeitgeist.js:53-84 | the loop that skips an event at its first failing constraint returns the first active event |
| Zeitgeist.UnconstrainedAlwaysMatches | core/organo-sima/umwelt/zeitgeist.js:59-81 | an event without constraints makes some event, at or before it, active at every moment |
| Zeitgeist.EmptyDatesNeverMatch | core/organo-sima/umwelt/zeitgeist.js:61-66 | an event with an empty date list is never the active one |
| Zeitgeist.HoursWindowInclusive | core/organo-sima/umwelt/zeitgeist.js:74-77 | an hours window admits an hour iff it lies between start and end, both included |
| Zeitgeist.AtmosphericPrompt | core/organo-sima/umwelt/zeitgeist.js:89-108 | no prompt iff no atmosphere; otherwise the header first and once, then one line per non-empty field (Zeitgeist.PromptContents says which) |
| Zeitgeist.PromptContents | core/organo-sima/umwelt/zeitgeist.js:89-108 | the feeling, urge, context and vulnerability lines are each present iff their field is non-empty and carry that field's text, and every line after the header is one of them |
| Zeitgeist.PromptOrder | core/organo-sima/umwelt/zeitgeist.js:92-105 | the prompt lines come as header, feeling, urge, context, vulnerability, skipping empty ones |
| Zeitgeist.AmbientStateOf | core/organo-sima/umwelt/zeitgeist.js:23-48 | inactive and empty iff no event is active; otherwise the active event's id as both id and name, its symbols, atmosphere and tank modifiers, with a prompt iff it has an atmosphere |
| WorldSimulator.PeriodByBoundaries | core/organo-sima/umwelt/worldSimulator.js:260-267 | the period of an hour is the one after the last boundary (6, 12, 14, 18, 21) it has reached: madrugada before 6, then mañana from 6, mediodía from 12, tarde from 14, atardecer from 18 and noche from 21 |
| WorldSimulator.SeasonOf | core/organo-sima/umwelt/worldSimulator.js:269-274 | the southern-hemisphere seasons: verano iff December to February, otoño iff March to May, invierno iff June to August, primavera iff September to November |
| WorldSimulator.WeekendIsNotWeekday | core/organo-sima/umwelt/worldSimulator.js:280-300 | a weekday 0-6 is weekend iff it is not a weekday (see also line 254) |
| WorldSimulator.TemporalOf | core/organo-sima/umwelt/worldSimulator.js:240-258 | weekend iff Sunday or Saturday; the season of the zero-based month plus one and the period of the hour |
| WorldSimulator.RoutineOf | core/organo-sima/umwelt/worldSimulator.js:280-300 | each of the ten routines iff its day kind and hour window: on weekdays prepare 5-6, commute 6-7, work 7-18, commute back 18-19, relax 19-22, Discord from 22 to 1, sleep 1-5; on weekends sleep 1-10, free day 10-22, night from 22 to 1 |
| WorldSimulator.CircadianPressure | core/organo-sima/umwelt/worldSimulator.js:165-170 | very high iff 1-5 h, medium iff 6-8 h, high iff 22 h or later or midnight, low iff 9-21 h |
| WorldSimulator.ThermalComfort | core/organo-sima/umwelt/worldSimulator.js:172-180 | neutral iff no weather; otherwise cold iff below 10 °C, cool iff 10-15, hot iff above 28, pleasant iff 15-28 |
| WorldSimulator.EnergyDrain | core/organo-sima/umwelt/worldSimulator.js:182-199 | high iff the routine is work; otherwise critical iff 1-5 h and medium iff 18-21 h |
| WorldSimulator.SocialAffordances | core/organo-sima/umwelt/worldSimulator.js:201-220 | Discord iff 22 h or later or before 6; family iff 8-21 h; silence iff 23 h or later or before 7 and the weekend event is not active; at most two, none repeated |
| WorldSimulator.ArousalOf | core/organo-sima/umwelt/worldSimulator.js:222-234 | the arousal lies in 0..100 |
| WorldSimulator.ArousalNeverClamped | core/organo-sima/umwelt/worldSimulator.js:222-234 | the unclamped arousal already lies in 10..85, so the clamp never changes it |
| WorldSimulator.ArousalLevel | core/organo-sima/umwelt/worldSimulator.js:222-234 | the step-by-step arousal (base 50, the hour's and the rain's adjustments, clamped) is the arousal of the hour and weather |
| WorldSimulator.InterpretArousal | core/organo-sima/umwelt/worldSimulator.js:401-406 | very low iff below 30, low-medium iff 30-50, medium-high iff 50-70, very high iff 70 or more |
| WorldSimulator.PhysiologicalImpactOf | core/organo-sima/umwelt/worldSimulator.js:152-163 | an arousal modulation in 0..100 and a neutral thermal comfort iff there is no weather |
| WorldSimulator.WorkdayDrainIsHigh | core/organo-sima/umwelt/worldSimulator.js:182-199 | on a weekday between 7 and 18 the routine's drain is high (see also lines 280-300) |

## Left out

- I/O and configuration loading: YAML cassettes, identity files, the middleware's mapping files (`homeostatic-middleware.js:19-64`) and the zeitgeist's events are parameters of the model.
- Prompt text assembly: `_buildDynamicPrompt` (`index.js:211-247`) and the prompt builders are not modelled; the instruction and injection lists are datatypes of tagged lines, and their wording functions are given without claims about wording.
- The asynchronous wrapper of `PsiOrgan.process`, the weather service, the narrator and `getWorldContext`: only the synchronous step sequence is modelled; weather is an optional parameter of the world classifiers.
- The world simulator's neighbourhood activity and prompt text (`worldSimulator.js:128-146`, `:323-399`) and `restore` of its location are not modelled.
- `serialize`/`restore` of the memory, the superego, the id, the psychic intensity, the ego and the organ, and `serialize` everywhere: they copy state to plain records and back. Restore of the soma, the modulators and both processes is modelled.
- `associateSolutions` of the primary process (`primary_process.js:150-167`) is not modelled: nothing in the pipeline calls it.
- Timestamps and `Date.now()` are a `now` parameter; the `Math.random()` draw of the proactive proposals is an oracle parameter.
- Util.Lower: lowers the ASCII capitals and the Latin-1 capitals U+00C0..U+00DE except × (so Á É Í Ó Ú Ü Ñ become á é í ó ú ü ñ); capitals outside Latin-1 and the special cases of `toLowerCase` (such as İ) keep their case. NFD decomposition is modelled as folding the accented letters and removing combining marks U+0300..U+036F.
- Perception.Intensity, Perception.ExtractFeatures, Perception.HasTripleRun: count Unicode code points where JavaScript counts UTF-16 code units, so a text with characters outside the Basic Multilingual Plane (emoji) gets a different length, a different short-text flag and may be seen as repeating a character three times where the source, comparing surrogate halves, is not.
- PsiOrgan.PsiOrgan.constructor, PsiOrgan.PsiOrgan.LoadList, PsiOrgan.PsiOrgan.LoadMarkers, PsiOrgan.LoadedAll, PsiOrgan.LoadedKeys, PsiOrgan.LoadedKeepsOthers: require every object item to name a concept or a topic; an item naming neither makes `concept.toLowerCase()` throw a TypeError in the source (`memory.js:71`, reached from `index.js:259`), which the model does not represent.
- PsiOrgan.PsiOrgan.Sense, PsiOrgan.PsiOrgan.Process: require a non-empty normalised message; on an empty one the source's perception computes a NaN intensity, which the stimulus step then reads as 0.5 (`index.js:157`); that path is not modelled.
- The world simulator's helpers `_getLocationData`, `_getApartmentContext` and `_formatWeatherData` (`worldSimulator.js:109-126`, `:310-317`) only look up and format text for the prompt and are not modelled.
- Superego.MechanismOf, Superego.Superego.ActivarDefensa, SecondaryProcess.WordFor, SecondaryProcess.BehaviorOf: the source reads its mechanism, word and behaviour tables with `obj[name]`, which also finds the names every object inherits from `Object.prototype` ("constructor", "toString", "valueOf", "__proto__", …). For such a name `activarDefensa` logs an entry and returns a record (`superego.js:129-142`), and `wordMap[aim] || aim` and `behaviorMap[aim] || 'conversar_normal'` return a function (`secondary_process.js:201`, `:329`). The model treats these names as unmapped, because a function-valued word or behaviour has no counterpart among the model's strings. In the pipeline the only way to reach such a name is an ideal configured under it, since proactive aims are ideal names (`primary_process.js:416-422`). `activarDefensa`'s only caller (`primary_process.js:305`) passes one of the three names `_sugerirDefensa` returns.
- Floating point: every quantity is an exact real, so no IEEE rounding is captured.
- Concurrency: none; every call runs to completion before the next.
- Perception.Process: requires a non-empty normalised input, because the source divides by the length and yields NaN on an empty message.
- Evaluation.Describe: states the 'indiferente' band and the two extreme bands; the intermediate descriptions follow from the body.
- Modulators.PromptModifiersOf: states the focus, the token budget and the missing-emotion case; the wording of the emotion instruction is not stated.
- Modulators.VoiceModifier: states only that each pattern has a non-empty voice modifier; the wording is not stated.
- PrimaryProcess.PrimaryProcess.GetTopProposals: sorts the stored proposals of the last result in place, and the model reorders only that stored list. In the source that array is the defense track's `filteredProposals` itself (`primary_process.js:339-340`, kept at `:495`), so the sort also reorders the defense track's list until its next `process` clears it; the model keeps the two lists apart and does not capture this aliasing.
- `snapshot.neurosymbols` is passed to `_evaluateTankImpact` but never read, so the model leaves it out.
