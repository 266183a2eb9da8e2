# Colorista Virtual: a verified model of the client stores and page helpers

Colorista Virtual is a hair-colouring assistant for the De Sírius product lines. Its client keeps everything in memory, in stores:

- the hair-damage diagnosis store;
- the user and leaderboard store;
- the before/after gallery store;
- a mock authentication store;
- five template "AI" tools: the colour formula, the tone converter, the background tone analysis, the unwanted tone corrector and the neutralization guide.

This project models those stores. It also models the small pieces of logic the pages run before calling them:

- the exclusive "nenhum" multi-select and the three-step diagnosis wizard;
- the reflection multi-select of the colorist page;
- the dashboard greeting, recent badges and points;
- the field rules of the registration, password recovery and password reset forms.

## How the model is built

- Each store is a `class` whose fields are the store's state (`seq` fields for the record lists, `isLoading`, `error`). Each state-changing store action is a `method` that changes exactly the fields the source writes: through `set`, or, for `getPosts`, by sorting `posts` in place. The lookups (`getUser`, `getPost`, `getDiagnosis`, `getUserDiagnoses`, `getUserPosts`, `getBadges`) are functions. Its `ensures` states the new state on success and on failure. The diagnosis, gallery, AI tools and auth stores, the diagnosis wizard and the colorist form have a `Valid()` invariant that every method keeps. In the record stores that invariant is the numbering behind the `${length + 1}` ids, which is what makes each new id fresh. The user store and the three auth pages have no such invariant: `updateUser` can rename a user onto another's id, so the user store keeps nothing beyond its fields' types.
- The record builders (the diagnosis, each AI tool's record, the product list) and the lookups are functions. Lemmas state what the source promises about them: from which answers each issue, recommendation or product comes, in both directions.
- `simulateAIProcessing` is a `Delay` parameter with three outcomes:
  - `Resolves`: the value comes back unchanged;
  - `RejectsWithError(message)`: the rejection is an `Error`;
  - `RejectsWithNonError`: the rejection is something else.

  A `catch` block records `error instanceof Error ? error.message : fallback`, which the model writes as `RejectionMessage`.
- `new Date()` is a `now: Time` parameter, in milliseconds.
- Ids are strings: `IdOf(n)` is the decimal rendering of `n`. It is proved injective through the round trip `ParseInt(Decimal(n)) == Some(n)`.
- The JavaScript library calls the code relies on are functions with their meaning proved: `find`, `filter`, `map`, the stable `sort` with a "larger key first" comparator, `trim`, `split(c)[0]`, `includes`, `toLowerCase`, string `<`, and `parseInt`. They live in the modules `Seqs` and `Strings`.
- The react-hook-form rules are a datatype of rules, with `FirstError` giving the message shown under a field. The e-mail regular expression `^[^\s@]+@[^\s@]+\.[^\s@]+$` is modelled as the ways of cutting the value into its parts. `FormRules.EmailPatternMeans` proves that this is exactly "no white space, one '@' with text before it, and a '.' inside the domain".
- The diagnosis, colorist, registration, recovery and reset pages are classes that hold a reference to the store they use and their own `useState` fields. The dashboard keeps no state of its own, so its helpers are functions of the logged-in user.

## Model

| member | source | states |
|---|---|---|
| Wrappers.RejectionMessage | src/store/diagnosisStore.ts:108-113 | the recorded error is the rejection's own message for an `Error` and the operation's fallback text otherwise |
| Types.IdOfInjective | src/store/diagnosisStore.ts:88 | two counts give the same `${n}` id exactly when they are equal |
| Types.FreshId | src/store/galleryStore.ts:41 | when the records are numbered 1..n, the id `${n + 1}` belongs to none of them |
| Types.NumberedAppend | src/store/galleryStore.ts:40-58 | appending the record with id `${n + 1}` keeps the numbering |
| Types.NumberedPermutation | src/store/galleryStore.ts:24-26 | reordering the records keeps the numbering |
| Types.NumberedMapIf | src/store/galleryStore.ts:76-86 | an update that keeps each record's id keeps the numbering |
| Strings.TrimStart | src/pages/dashboard/DashboardPage.tsx:52-53 | the result is a suffix of the text, everything cut is white space, and it does not start with white space |
| Strings.TrimEnd | src/pages/dashboard/DashboardPage.tsx:52-53 | the result is a prefix of the text, everything cut is white space, and it does not end with white space |
| Strings.Trim | src/pages/dashboard/DashboardPage.tsx:52-53 | the result occurs in the text; it is empty exactly when the text is all white space; otherwise neither end is white space |
| Strings.ToLower | src/store/aiToolsStore.ts:123 | same length, each character lowered on its own |
| Strings.ToLowerIdempotent | src/store/aiToolsStore.ts:158 | lowering twice is lowering once |
| Strings.ContainsSuffix | src/store/aiToolsStore.ts:168-169 | a text ending with `sub` includes `sub` |
| Strings.ContainsExtend | src/store/aiToolsStore.ts:84 | what a text includes, the text with anything appended still includes |
| Strings.BelowStrictTotal | src/store/aiToolsStore.ts:50 | string `<` is irreflexive and asymmetric, and orders any two different strings one way or the other |
| Strings.BeforeFirst | src/pages/dashboard/DashboardPage.tsx:53-57 | `split(sep)[0]` is the prefix up to the first `sep`, holds no `sep`, and is followed by `sep` unless it is the whole text |
| Strings.Decimal | src/store/diagnosisStore.ts:88 | the rendering of a number is never empty |
| Strings.DigitPrefix | src/store/aiToolsStore.ts:83 | the longest leading run of digits: a prefix, all digits, stopped by a non-digit or the end |
| Strings.DecimalDigits | src/store/diagnosisStore.ts:88 | the rendering of n is all decimal digits and denotes n |
| Strings.ParseDigits | src/store/aiToolsStore.ts:83 | `parseInt` of a run of decimal digits is the number it denotes |
| Strings.ParseIntegerPart | src/store/aiToolsStore.ts:83 | `parseInt` of a tone such as `7.0` reads the level before the '.' |
| Strings.ParseDecimal | src/store/aiToolsStore.ts:46 | round trip: `parseInt` of the rendering of n is n |
| Strings.DecimalInjective | src/store/aiToolsStore.ts:46 | different numbers render differently |
| Seqs.FindIndex | src/store/userStore.ts:26-28 | the index `find` stops at satisfies the selection, and no earlier element does; no element does when it finds none |
| Seqs.Find | src/store/userStore.ts:26-28 | `find` finds something exactly when some element matches, and then it is the first match |
| Seqs.Filter | src/store/diagnosisStore.ts:174-176 | `filter` keeps only selected elements, and keeps every one of them |
| Seqs.FilterConcat | src/store/diagnosisStore.ts:174-176 | filtering distributes over concatenation, so it keeps the stored order |
| Seqs.FilterCount | src/pages/tools/ColoristPage.tsx:90-91 | each selected element is kept exactly as often as it occurs, and the others not at all |
| Seqs.FilterAll | src/pages/tools/ColoristPage.tsx:90-91 | filtering with a selection every element passes returns the sequence unchanged |
| Seqs.MapIf | src/store/userStore.ts:36-47 | `map` with a conditional update keeps the length, updates the selected elements and leaves every other element as it was |
| Seqs.FindAfterMapIf | src/store/userStore.ts:49 | after an update that keeps the selection, `find` returns the update of what it found before, and still misses when it missed |
| Seqs.Insert | src/store/userStore.ts:139-146 | inserting into a sorted sequence gives a sorted sequence holding one more element, that element |
| Seqs.SortDesc | src/store/userStore.ts:139-146 | the copy sorted with `(a, b) => key(b) - key(a)` is ordered by key, largest first, and is a permutation of the input |
| Seqs.InsertStable | src/store/userStore.ts:139-146 | an insertion never moves an element past another with the same key |
| Seqs.SortStable | src/store/galleryStore.ts:24-26 | the sort is stable: the elements with any one key keep their relative order |
| Seqs.SortThree | src/store/userStore.ts:139-146 | three elements with keys in the order b < a < c are sorted to c, a, b |
| Selections.ToggleContents | src/pages/tools/ColoristPage.tsx:89-95 | a selected value is removed, every occurrence of it, and every other value keeps its count; an unselected value is appended at the end |
| Selections.ToggleDistinct | src/pages/tools/ColoristPage.tsx:89-95 | a selection without repeats stays without repeats |
| Selections.ToggleTwice | src/pages/tools/ColoristPage.tsx:89-95 | toggling an unselected value twice gives the selection back |
| Selections.ToggleTwiceSelected | src/pages/tools/ColoristPage.tsx:89-95 | toggling a selected value twice moves it to the end and keeps the selection's contents |
| Diagnosis.ScoreBounds | src/store/diagnosisStore.ts:36-53 | the unclamped score lies in 1..15, the damage level in 1..10, and the clamp only cuts scores above 10 |
| Diagnosis.ScoreMonotone | src/store/diagnosisStore.ts:36-50 | adding chemical processes or heat tools never lowers the score or the level |
| Diagnosis.ScoreDamage | src/store/diagnosisStore.ts:36-53 | the running `+=` updates and the clamp compute the damage level |
| Diagnosis.DistinctLabels | src/store/diagnosisStore.ts:56-61 | the five issue labels are pairwise different |
| Diagnosis.IssueListIff | src/store/diagnosisStore.ts:56-61 | each issue label is listed exactly when its condition holds, and nothing else is listed |
| Diagnosis.IssuesIff | src/store/diagnosisStore.ts:56-61 | chemical damage exactly above level 5; heat damage exactly for a non-empty heat tool list, `['nenhum']` included; breakage, high porosity and low elasticity exactly for their answers |
| Diagnosis.TierPlan | src/store/diagnosisStore.ts:64-76 | three plan items from level 4 up, two below |
| Diagnosis.RecommendationsShape | src/store/diagnosisStore.ts:64-84 | the recommendations are the tier plan, then the sealant exactly for high porosity, then the protein ampoules exactly for low elasticity, with the length that follows |
| Diagnosis.PlanRecommendations | src/store/diagnosisStore.ts:64-84 | the `push`es, which choose the extras by looking at the issues, give those recommendations |
| Diagnosis.DiagnoseShape | src/store/diagnosisStore.ts:87-97 | a new diagnosis carries the given id, user '1' and the time; its level is in 1..10; chemical damage appears exactly above level 5; the sealant and the ampoules appear exactly for their answers |
| Diagnosis.ProductExtrasIff | src/store/diagnosisStore.ts:146-154 | each trait product is listed exactly when its trait holds, and the length follows |
| Diagnosis.ProductPlanShape | src/store/diagnosisStore.ts:127-154 | the products are the tier (four from level 7 up, three below) followed by the trait products |
| Diagnosis.SeedDiagnosesNumbered | src/lib/mock-data.ts:127-160 | the seed diagnoses are numbered 1 and 2 |
| Diagnosis.DiagnosisStore.constructor | src/store/diagnosisStore.ts:18-22 | the store starts with the seed diagnoses, no current diagnosis, not loading and no error |
| Diagnosis.DiagnosisStore.AnalyzeDamage | src/store/diagnosisStore.ts:24-115 | on success the built diagnosis, whose id is fresh, is appended and becomes current; on failure nothing changes but the error; loading ends either way |
| Diagnosis.DiagnosisStore.RecommendProducts | src/store/diagnosisStore.ts:117-168 | an unknown id fails with 'Diagnóstico não encontrado'; otherwise the stored recommendations followed by the products, or the rejection; the diagnoses are never changed |
| Diagnosis.DiagnosisStore.GetDiagnosis | src/store/diagnosisStore.ts:170-172 | found exactly when some diagnosis has the id, and then the first such |
| Diagnosis.DiagnosisStore.GetUserDiagnoses | src/store/diagnosisStore.ts:174-176 | only diagnoses of that user, and every one of them |
| Diagnosis.UserDiagnosesExact | src/store/diagnosisStore.ts:174-176 | a user's history holds each of their diagnoses as often as the store does, and none of anyone else's |
| Diagnosis.UserDiagnosesAppend | src/store/diagnosisStore.ts:101-105 | a new diagnosis joins the end of its own user's history, and the other histories stay the same |
| Users.MergeLaws | src/store/userStore.ts:36-41 | an empty patch changes nothing; merging a patch twice is merging it once; present fields replace and absent fields keep |
| Users.FindAfterApply | src/store/userStore.ts:65-78 | after an update that keeps ids, `getUser` finds the update of the user found before |
| Users.RenameLosesUser | src/store/userStore.ts:36-49 | a patch giving the user another id leaves nobody with the old one, so the returned user is `undefined` |
| Users.AddPointsTotal | src/store/userStore.ts:64-75 | the total of all points grows by the points once per user with the id, so other users do not change |
| Users.GrantKeepsDistinct | src/store/userStore.ts:102-118 | with unique user ids, awarding a badge the user lacks keeps every user's badge ids distinct |
| Users.RankingCorrect | src/store/userStore.ts:139-146 | the leaderboard is ordered by points, highest first; it is a permutation of the users; users with equal points keep their order |
| Users.RankingOfThree | src/store/userStore.ts:139-146 | three users with points in the order second < first < third rank third, first, second |
| Users.SeedRanking | src/lib/mock-data.ts:3-72 | the seed leaderboard is Carla (1540), Juliana (1250), Rafael (980) |
| Users.CatalogIdsDistinct | src/lib/mock-data.ts:259-294 | the badge catalog's ids are all different |
| Users.UserStore.constructor | src/store/userStore.ts:20-24 | the store starts with the seed users, an empty leaderboard, not loading and no error |
| Users.UserStore.GetUser | src/store/userStore.ts:26-28 | found exactly when some user has the id, and then the first stored user with that id |
| Users.UserStore.UpdateUser | src/store/userStore.ts:30-57 | on success the patch is merged into every user with the id and the result is a lookup of the id afterwards; on failure the users stay as they were and the error is recorded |
| Users.UserStore.AddPoints | src/store/userStore.ts:59-86 | on success the points are added to the users with the id and the user found before comes back with the new points; on failure nothing changes but the error |
| Users.UserStore.AddBadge | src/store/userStore.ts:88-133 | the unknown user, the unknown badge and the already-held badge are refused in that order with their messages; otherwise the catalog badge, stamped now, is appended to that user; the users are unchanged on every failure; error is none exactly on success |
| Users.UserStore.GetLeaderboard | src/store/userStore.ts:135-156 | on success the ranking of the users is stored and returned and `users` is left alone; on failure the old leaderboard stays |
| Users.UserStore.GetBadges | src/store/userStore.ts:158-160 | exactly the badge catalog: five badges with different ids |
| Gallery.Newest | src/store/galleryStore.ts:24-26 | newest first, and a permutation of the posts |
| Gallery.LikeTotal | src/store/galleryStore.ts:75-86 | a like adds exactly one to the total per post with the id; an unknown id changes nothing |
| Gallery.SeedPostsNumbered | src/lib/mock-data.ts:74-125 | the seed posts are numbered 1 and 2 |
| Gallery.SeedNewest | src/lib/mock-data.ts:74-125 | newest first, post 2 comes before post 1 |
| Gallery.GalleryStore.constructor | src/store/galleryStore.ts:19-22 | the store starts with the seed posts, not loading and no error |
| Gallery.GalleryStore.GetPosts | src/store/galleryStore.ts:24-26 | the stored posts are replaced by their newest-first order, which is returned |
| Gallery.GalleryStore.GetUserPosts | src/store/galleryStore.ts:28-31 | newest first, and exactly that user's posts |
| Gallery.UserPostsExact | src/store/galleryStore.ts:28-31 | each of the user's posts appears as often as in the store, and no one else's appear |
| Gallery.GalleryStore.GetPost | src/store/galleryStore.ts:33-35 | found exactly when some post has the id, and then the first stored post with that id |
| Gallery.GalleryStore.AddPost | src/store/galleryStore.ts:37-68 | on success one post with the fresh id `${n + 1}`, no likes and no comments is appended; on failure nothing changes but the error |
| Gallery.GalleryStore.LikePost | src/store/galleryStore.ts:70-95 | on success every post with the id gets one more like and nothing else changes; an unknown id is no error |
| Gallery.GalleryStore.AddComment | src/store/galleryStore.ts:97-141 | an unknown post fails with 'Publicação não encontrada'; otherwise the comment numbered after that post's comments is appended to it, and looking the post up shows it |
| Gallery.CommentIdFreshness | src/store/galleryStore.ts:100-111 | the comment id counts the post's comments: it is fresh when the comments are numbered 1..n, and repeats an existing comment numbered beyond the list once enough comments have been appended |
| Gallery.SeedCommentRepeats | src/store/galleryStore.ts:106 | the seed post 2 is such a post: one comment, numbered '3', not numbered 1..n |
| Auth.SeedEmailsFind | src/lib/mock-data.ts:3-72 | each seed user is found by their own e-mail |
| Auth.NewAccountIdFresh | src/store/authStore.ts:80-96 | a registered account's id is '4', which no seed user has |
| Auth.AuthStore.constructor | src/store/authStore.ts:21-24 | nobody is logged in, not loading and no error |
| Auth.AuthStore.Login | src/store/authStore.ts:26-49 | success exactly when a seed user has the e-mail, whatever the password; otherwise 'Usuário ou senha incorretos' or the rejection, with the user unchanged; `isAuthenticated` follows `user` |
| Auth.AuthStore.LoginWithGoogle | src/store/authStore.ts:51-68 | on success the first seed user is logged in; on failure the user is unchanged |
| Auth.AuthStore.Register | src/store/authStore.ts:70-103 | a seed e-mail is refused with 'Este e-mail já está registrado'; otherwise the new account (id '4', no points, no badges) is logged in, or the rejection is recorded |
| Auth.AuthStore.Logout | src/store/authStore.ts:105-110 | nobody is logged in; loading and error are not touched |
| Auth.AuthStore.ForgotPassword | src/store/authStore.ts:112-131 | an unknown e-mail records 'E-mail não encontrado'; a known one records no error, or the rejection |
| Auth.AuthStore.ResetPassword | src/store/authStore.ts:133-146 | succeeds for any token and password unless the call rejects |
| AITools.FormulaShape | src/store/aiToolsStore.ts:50 | the formula names Ox 30 exactly when the current colour is below the desired one as text, Ox 20 otherwise, and ends with the desired colour |
| AITools.ProportionsShape | src/store/aiToolsStore.ts:51 | 50g exactly when the desired colour includes 'intenso' |
| AITools.FormulaSwap | src/store/aiToolsStore.ts:50 | for two different colours exactly one of the two orders gets Ox 30; for the same colour neither does |
| AITools.ListsShape | src/store/aiToolsStore.ts:82-93 | for given decisions on lightening and ash: three steps and five products, each chosen by its decision |
| AITools.ConversionShape | src/store/aiToolsStore.ts:82-93 | three steps and five products; bleaching and Ox 20 exactly when `parseInt` of the tone goes up; toner and intensifier exactly for a '.1' target |
| AITools.ConversionNamesTarget | src/store/aiToolsStore.ts:84 | step 2 names the target tone |
| AITools.LightensByLevel | src/store/aiToolsStore.ts:83 | tones written as a level with a reflection lighten exactly when the target level is higher |
| AITools.NaNNeverLightens | src/store/aiToolsStore.ts:88 | a current tone that is no number never lightens, so the base colour is used |
| AITools.AnalysisShape | src/store/aiToolsStore.ts:123-128 | '8.0 (Loiro Claro)' exactly when the lowered description includes 'loiro'; three recommendations chosen by 'amarelado' and 'mechas'; the photo and description kept |
| AITools.AnalysisIgnoresCase | src/store/aiToolsStore.ts:123-128 | a description and its lowered form give the same tone and recommendations |
| AITools.SolutionShape | src/store/aiToolsStore.ts:157-170 | the four known reflections get their fixed text in any case; any other is sent to a professional in a text that names it as given |
| AITools.CorrectionFor | src/store/aiToolsStore.ts:152-171 | one solution per reflection, in order, each the solution of that reflection |
| AITools.CorrectionConcat | src/store/aiToolsStore.ts:157 | the solutions of two lists joined are the two lists' solutions joined |
| AITools.GuideShape | src/store/aiToolsStore.ts:199-216 | always the seed guide's four tips and four products; the toning shampoo and mask exactly for a blonde or platinum target, the ash intensifier exactly for a cool one |
| AITools.SeedFormulasNumbered | src/lib/mock-data.ts:162-183 | the seed formulas are numbered 1 and 2 |
| AITools.SeedSinglesNumbered | src/lib/mock-data.ts:185-257 | the other seed histories hold one record each, numbered 1 |
| AITools.AIToolsStore.constructor | src/store/aiToolsStore.ts:32-39 | each history starts as the seed list, not loading and no error |
| AITools.AIToolsStore.GenerateColorFormula | src/store/aiToolsStore.ts:41-71 | on success the built formula, with a fresh id, is appended to its own history only; on failure the rejection is recorded |
| AITools.AIToolsStore.ConvertTone | src/store/aiToolsStore.ts:73-112 | on success the built conversion, with a fresh id, is appended to its own history only; on failure the rejection is recorded |
| AITools.AIToolsStore.AnalyzeBackgroundTone | src/store/aiToolsStore.ts:114-147 | on success the built analysis, with a fresh id, is appended to its own history only; on failure the rejection is recorded |
| AITools.AIToolsStore.CorrectUnwantedTones | src/store/aiToolsStore.ts:149-189 | on success the built correction, with a fresh id, is appended to its own history only; on failure the rejection is recorded |
| AITools.AIToolsStore.GetNeutralizationGuide | src/store/aiToolsStore.ts:191-235 | on success the built guide, with a fresh id, is appended to its own history only; on failure the rejection is recorded |
| DiagnosisPage.ExclusiveToggleCases | src/pages/tools/DiagnosisPage.tsx:80-96 | 'nenhum' gives `['nenhum']`; anything while 'nenhum' is selected gives `[value]`; otherwise a selected value is removed with the rest kept and an unselected one is appended |
| DiagnosisPage.ExclusiveToggleWellFormed | src/pages/tools/DiagnosisPage.tsx:98-114 | a toggle keeps 'nenhum' alone or absent, and keeps the list free of repeats |
| DiagnosisPage.ReachableWellFormed | src/pages/tools/DiagnosisPage.tsx:49-50 | every selection reached by a run of clicks from a well-formed one, the empty one included, is well formed |
| DiagnosisPage.AnswersFor | src/pages/tools/DiagnosisPage.tsx:122-130 | the answers carry both selections and the step 2 breakage, elasticity, porosity and density |
| DiagnosisPage.DiagnosisWizard.constructor | src/pages/tools/DiagnosisPage.tsx:48-51 | step 1, empty selections, no diagnosis |
| DiagnosisPage.DiagnosisWizard.ToggleChemical | src/pages/tools/DiagnosisPage.tsx:80-96 | the chemical selection becomes its exclusive toggle and stays well formed |
| DiagnosisPage.DiagnosisWizard.ToggleHeatTools | src/pages/tools/DiagnosisPage.tsx:98-114 | the heat tool selection becomes its exclusive toggle and stays well formed |
| DiagnosisPage.DiagnosisWizard.NextDisabled | src/pages/tools/DiagnosisPage.tsx:278 | "Próximo" is enabled exactly when both selections are non-empty |
| DiagnosisPage.DiagnosisWizard.Next | src/pages/tools/DiagnosisPage.tsx:116-120 | on step 1, where the button is rendered: with the button enabled the wizard moves to step 2, otherwise it stays |
| DiagnosisPage.DiagnosisWizard.Back | src/pages/tools/DiagnosisPage.tsx:358-364 | on step 2, where the button is rendered: back to step 1, selections kept |
| DiagnosisPage.DiagnosisWizard.SubmitStep2 | src/pages/tools/DiagnosisPage.tsx:122-136 | from step 2, where its form is rendered: step 3 with the store's new diagnosis exactly when the analysis resolves, which the store appends to its list with no error; otherwise the step, the diagnosis and the store's list stay and the store records the rejection; the store ends not loading |
| DiagnosisPage.DiagnosisWizard.Restart | src/pages/tools/DiagnosisPage.tsx:138-143 | step 1, empty selections, no diagnosis |
| ColoristPage.OfferedKnown | src/pages/tools/ColoristPage.tsx:78-85 | the first four offered reflections have fixed corrections once lowered; blue and violet do not |
| ColoristPage.ToneCorrectionForm.constructor | src/pages/tools/ColoristPage.tsx:87 | the selection starts empty |
| ColoristPage.ToneCorrectionForm.ToggleReflection | src/pages/tools/ColoristPage.tsx:89-95 | the selection becomes its toggle and stays free of repeats |
| ColoristPage.ToneCorrectionForm.SubmitDisabled | src/pages/tools/ColoristPage.tsx:565 | the button is disabled exactly while nothing is selected |
| ColoristPage.ToneCorrectionForm.Submit | src/pages/tools/ColoristPage.tsx:128-138 | with nothing selected the store is untouched; otherwise the correction of the selection is appended with no error, or the rejection recorded, and the store ends not loading |
| Dashboard.FirstName | src/pages/dashboard/DashboardPage.tsx:50-64 | the greeting is never empty |
| Dashboard.FirstNameFromName | src/pages/dashboard/DashboardPage.tsx:52-55 | a non-blank name gives its first space-separated word: a non-empty prefix of the trimmed name without a space, ended by a space or the name's end |
| Dashboard.FirstNameFromEmail | src/pages/dashboard/DashboardPage.tsx:56-59 | with a blank name, the e-mail's part before its first '@' when that is not empty; 'Usuário' when there is no '@' or the part is empty |
| Dashboard.RecentBadges | src/pages/dashboard/DashboardPage.tsx:67-78 | the first min(3, n) badges in order, none without a user |
| Dashboard.DisplayedPoints | src/pages/dashboard/DashboardPage.tsx:107 | the points when they are not zero; otherwise a non-zero `total_points`; zero exactly when both the points and `total_points` are zero or absent |
| FormRules.FirstError | src/pages/auth/RegisterPage.tsx:86-147 | no error exactly when every rule passes; otherwise the message of the first failing rule |
| FormRules.EmailPatternMeans | src/pages/auth/RegisterPage.tsx:101-107 | the regular expression matches exactly the values without white space with one '@' after some text and a '.' strictly inside the domain |
| FormRules.NameAccepted | src/pages/auth/RegisterPage.tsx:86-92 | accepted exactly from three characters; the empty name gets the required message, a shorter one the length message |
| FormRules.EmailAccepted | src/pages/auth/RegisterPage.tsx:101-107 | accepted exactly for the e-mail shape; the empty value gets the required message, any other rejected one 'E-mail inválido' |
| FormRules.PhoneAccepted | src/pages/auth/RegisterPage.tsx:115-120 | accepted exactly when not empty |
| FormRules.PasswordAccepted | src/pages/auth/RegisterPage.tsx:129-135 | accepted exactly from six characters; the empty one gets the page's required message |
| FormRules.ConfirmAccepted | src/pages/auth/RegisterPage.tsx:144-147 | accepted exactly when not empty and equal to the password; a different one gets 'As senhas não coincidem' |
| RegisterPage.Submittable | src/pages/auth/RegisterPage.tsx:86-147 | the form's rules accept it, so `handleSubmit` calls `onSubmit`, exactly when the name, e-mail, phone, password and confirmation are all acceptable |
| RegisterPage.RegistrationPage.constructor | src/pages/auth/RegisterPage.tsx:37-44 | no navigation yet |
| RegisterPage.RegistrationPage.Submit | src/pages/auth/RegisterPage.tsx:37-44 | an unacceptable form changes nothing; an acceptable one calls `register` and then goes to /dashboard, also when the store refused the e-mail or failed; a new e-mail that resolves logs the new account in with no error |
| RegisterPage.RegistrationPage.GoogleRegister | src/pages/auth/RegisterPage.tsx:46-53 | logs in as the Google account (Juliana) with no error, or keeps the user and records the rejection; goes to /dashboard whatever the outcome |
| ForgotPasswordPage.Submittable | src/pages/auth/ForgotPasswordPage.tsx:75-81 | the form's rules accept exactly an e-mail of the accepted shape, never the empty one |
| ForgotPasswordPage.RecoveryPage.constructor | src/pages/auth/ForgotPasswordPage.tsx:18 | `success` starts false |
| ForgotPasswordPage.RecoveryPage.Render | src/pages/auth/ForgotPasswordPage.tsx:51-93 | the success alert replaces the form exactly when `success` holds; the error alert shows the store's error exactly when it is a non-empty message, since `{error && …}` hides an empty one |
| ForgotPasswordPage.RecoveryPage.Submit | src/pages/auth/ForgotPasswordPage.tsx:26-33 | after an accepted e-mail `success` holds whatever the store recorded, including 'E-mail não encontrado'; a rejected e-mail changes nothing |
| ResetPasswordPage.Token | src/pages/auth/ResetPasswordPage.tsx:24-25 | the `token` parameter when it is present and not empty, 'token-simulado' otherwise |
| ResetPasswordPage.Submittable | src/pages/auth/ResetPasswordPage.tsx:90-108 | submitted exactly for a password of six or more characters confirmed by the same text |
| ResetPasswordPage.ResetPage.constructor | src/pages/auth/ResetPasswordPage.tsx:21-25 | the token as defaulted; no success, no pending redirect |
| ResetPasswordPage.ResetPage.Submit | src/pages/auth/ResetPasswordPage.tsx:36-48 | after an accepted submission `success` holds and a redirect to /login in 3000 ms is pending, whatever the store recorded |
| ResetPasswordPage.ResetPage.TimerFires | src/pages/auth/ResetPasswordPage.tsx:42-44 | the pending redirect is followed |

## Left out

- Rendering, styling, animation and routing are not modelled. The only rendering modelled is which alert and which form the recovery page shows.
- The backend client and its session provider (`src/lib/supabase.ts`, `SessionProvider.tsx`, `AuthPage.tsx`, `AuthForm.tsx`) are not part of this model: they are a remote service.
- The browser logout fallbacks (`localStorage`, `window.location.reload`, `alert`) are browser I/O and are left out.
- `simulateAIProcessing`, `formatPhone` and the other helpers of `lib/utils.ts` are not part of this model. The delay is a parameter; the phone is taken as the field holds it.
- Async interleaving is left out: every store call is atomic. So the intermediate `isLoading = true` is never observed; the methods state only that loading has ended.
- `setTimeout` is modelled as a pending `Redirect` that `TimerFires` follows. The 3 seconds are recorded, not waited.
- Dates are millisecond `int`s passed in as `now`; `new Date()` is not modelled.
- Strings.ToLower: lowers ASCII and Latin-1 capitals only, not the rest of Unicode.
- Strings.ParseInt: integers are exact, so the precision JavaScript numbers lose above 2^53 is not modelled.
- JavaScript `number` becomes an unbounded `int` for points and likes: `User.points`, the `points` argument of Users.UserStore.AddPoints and the leaderboard comparator `b.points - a.points` (src/store/userStore.ts:139), written as Seqs.SortDesc. Fractional, infinite or NaN points, and what they do to the sort, are not modelled.
- Strings.Below and FormRules.Passes: Dafny characters are Unicode code points, while JavaScript's string `<` (src/store/aiToolsStore.ts:50) and react-hook-form's `minLength` (src/pages/auth/RegisterPage.tsx:88-91 and 131-134, src/pages/auth/ResetPasswordPage.tsx:92-95) count UTF-16 code units. The two agree inside the Basic Multilingual Plane only; outside it an emoji counts 2 for `minLength`, and U+1F600 sorts below U+FF01 in JavaScript.
- Strings.DigitsValue: gives non-digits the value 0; it is only ever applied to runs of digits.
- Users.GrantKeepsDistinct: badge ids stay distinct under `addBadge` only while user ids are unique. No store invariant keeps user ids unique, because `updateUser` can give two users the same id; then `addBadge` checks the first of them and appends to all of them.
- Users.Merge: a patch field given explicitly as `undefined` is modelled as absent. JavaScript's spread would copy the `undefined`.
- RegisterPage.Submittable and ForgotPasswordPage.Submittable: the e-mail field is an `<input type="email">` in a form without `noValidate`, so the browser first strips the value's leading and trailing white space and blocks a value that is not an HTML valid e-mail address. That native validation is browser behaviour and is not modelled: `"josé@x.com"` and `"a@b..c"` pass the form's rules but the browser blocks them, and `" a@b.c"` fails the rules as written but the browser submits it trimmed.
- Dashboard.DisplayedPoints: `total_points` is not a field of the user type, so it is a parameter.
- Dashboard.RecentBadges: the result of the `getBadges()` call made inside `getRecentBadges` is never used, so that call is left out.
- DiagnosisPage.AnswersFor: the answers drop `scalpCondition`, which the store never reads. The rest of step 1's form data is not modelled.
- ForgotPasswordPage.RecoveryPage.Submit: requires that `success` is false, because the form that submits is only rendered then.
- ResetPasswordPage.ResetPage.Submit: requires that `success` is false, for the same reason.
- The registration page's error alert is rendering of the store's `error` and is not modelled.
