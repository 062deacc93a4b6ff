# Movie API core, modelled in Dafny

The system is a small Express/Mongoose movie catalogue. It has four pieces of decision logic, and this project models each of them over an in-memory store:

- **Startup reconciliation** (`Seed`, `SeedData`).
  - At startup the server brings the Movie collection in line with a built-in seed list and a blocklist of lower-cased titles.
  - First it upserts every seed entry whose title is not blocked, keyed by exact `(title, year)`. A new document gets the whole entry; an existing one gets only the seed's poster.
  - Then it backfills missing or empty posters from a lower-cased-title → poster map built from the active entries.
  - Finally it deletes every document whose lower-cased title is blocked.
  - `MovieCollection` is the collection as these loops update it. Each method is proved against a function of the old state (`UpsertAll`, `Backfill`, `Cleanup`).
  - The lemmas prove what the routine promises. No blocked title remains. Non-poster fields are kept. Every active seed key is present. Ids stay unique. Running the routine again, at any later time, changes nothing.
  - `SeedData` holds the server's own seed list and blocklist, and shows which eleven of the sixteen entries are upserted.
- **Signup and login** (`Auth`).
  - Signup is an ordered chain of guards: all fields present, passwords equal, password at least 6 characters, email not registered.
  - On success it stores the user in an email-keyed store (`UserStore`), with the password hash and never the password.
  - Login is a pure decision. It gives one and the same 401 for an unknown email and for a wrong password.
  - bcrypt is a pair of function values: `hash(password, salt)` and `verify(password, hash)`. The signed token is the claims it carries.
- **Movie routes** (`MovieRoutes`).
  - The list reply is newest-first by `createdAt`, with `count` equal to the list's length.
  - A lookup by id gives the document, or 404 both for a malformed id and for an id that matches nothing.
  - Create, update and delete are disabled (405) and never read or change the store.
- **Movie schema** (`MovieModel`).
  - The schema first casts the input: it trims the string paths (with the white-space set of `String.prototype.trim`) and defaults `createdAt` to the current time.
  - Then it validates:
    - title, genre and director are required (absent or empty fails);
    - year is in 1888 .. currentYear + 1;
    - plot is at most 1000 characters;
    - a non-empty poster must match `^https?:\/\/.+`.
  - `ValidationErrors` lists the messages of the failing paths; it is empty exactly when the document is valid.

Clocks are parameters:
- `now` is the time an insert takes as `createdAt`.
- `currentYear` is the calendar year when the schema module was loaded. The schema computes its year maximum once, at load time, not per request.

## Model

| member | source | states |
|---|---|---|
| MovieModel.Trim | server/models/Movie.js:7 | the trimmed string is no longer than the input and neither starts nor ends with white space |
| MovieModel.TrimDropsOnlyWhitespace | server/models/Movie.js:7 | trimming keeps an infix of the input and everything dropped on either side is white space |
| MovieModel.TrimIdempotent | server/models/Movie.js:7 | trimming a trimmed string changes nothing |
| MovieModel.TrimEmptyIffBlank | server/models/Movie.js:4-8 | a string trims to "" exactly when every character is white space |
| MovieModel.Cast | server/models/Movie.js:3-43 | each of title, genre, director, plot and posterUrl is absent exactly when it was and otherwise holds the trimmed input; year and createdBy are kept; createdAt is the given value or else `now` |
| MovieModel.CastIdempotent | server/models/Movie.js:3-43 | casting an already cast document again, at any later time, changes nothing |
| MovieModel.ValidationErrors | server/models/Movie.js:3-34 | no messages exactly when the document is valid; each failing constraint (the three required paths, the year's presence, minimum and maximum, the plot length and the poster pattern) puts its own message in the list; at most six messages |
| MovieModel.ValidationMessages | server/models/Movie.js:3-34 | each of the eight messages is in the list exactly when its own constraint fails, so the list names exactly the failing constraints |
| MovieModel.IsValid | server/models/Movie.js:3-34 | a valid document has a non-empty title, genre and director and a year |
| MovieModel.ValidLater | server/models/Movie.js:13 | a document valid under one year maximum stays valid under every later one |
| MovieModel.Accepts | server/models/Movie.js:3-43 | the schema accepts the fields exactly when casting them leaves no validation message; accepted fields have a title, genre and director that do not trim to "", and a year |
| MovieModel.BlankRequiredRejected | server/models/Movie.js:4-23 | input with title, genre or director absent, or with a title of only white space, is rejected after casting |
| MovieModel.YearWindow | server/models/Movie.js:9-14 | with the other paths valid, a year is accepted exactly when 1888 <= year <= currentYear + 1 |
| MovieModel.PosterPattern | server/models/Movie.js:30-34 | a non-empty poster is accepted exactly when it is `http://` or `https://` followed by a character that is not a line terminator |
| MovieRoutes.SortByCreatedAt | server/routes/movies.js:16 | the result is newest-first by createdAt and a permutation of the input |
| MovieRoutes.ListMovies | server/routes/movies.js:14-31 | a reachable store gives every document (same multiset), newest first, with count equal to the list length; a store error gives 500 |
| MovieRoutes.FindById | server/routes/movies.js:36 | a found document is in the collection and has the id; none found means no document has the id |
| MovieRoutes.GetMovie | server/routes/movies.js:34-65 | a malformed id gives 404; a store error gives 500; on a reachable store the reply is 404 iff no document has the id, and a found document is one of the collection's with that id |
| MovieRoutes.GetMovieExact | server/routes/movies.js:45-48 | with unique ids, looking up an existing document's id returns exactly that document |
| MovieRoutes.NotFoundCollapses | server/routes/movies.js:38-58 | a malformed id and a well-formed id matching nothing give the same reply |
| MovieRoutes.CreateMovie | server/routes/movies.js:6-11 | always 405 "Creating movies is disabled" |
| MovieRoutes.UpdateMovie | server/routes/movies.js:68-73 | always 405 "Updating movies is disabled", for every id and body |
| MovieRoutes.DeleteMovie | server/routes/movies.js:76-81 | always 405 "Deleting movies is disabled", for every id |
| MovieRoutes.Route | server/routes/movies.js:5-81 | GET / gives a listing or 500, GET /:id a document, 404 or 500, and POST /, PUT /:id and DELETE /:id give 405; the reply is 200 exactly for a listing or a found document |
| MovieRoutes.WritesIgnoreStore | server/routes/movies.js:5-81 | a write request's reply is 405 and the same whatever the store holds or whether it is reachable |
| Auth.SignupGuards | server/routes/auth.js:13-44 | the guards pass exactly when all fields are truthy, the passwords are equal, the password has at least 6 characters and the email is not registered; every failure is a rejection; a 409 means the email is registered |
| Auth.PresenceFirst | server/routes/auth.js:14-19 | a missing or empty field gives 400 "All fields are required" whatever else is wrong |
| Auth.MismatchBeforeLength | server/routes/auth.js:22-35 | different passwords give the mismatch 400 whatever their lengths and whoever is registered |
| Auth.ShortPasswordRejected | server/routes/auth.js:29-44 | equal passwords shorter than 6 characters give 400 "Password must be at least 6 characters long" for every user store, so the length check comes before the email lookup |
| Auth.InputGuardsIgnoreStore | server/routes/auth.js:13-44 | when an input guard fails, the reply does not depend on the user store |
| Auth.SaveFailureReply | server/routes/auth.js:78-101 | a save failure is always a rejection: 409 "User with this email already exists" exactly for the duplicate-key error, 400 with the messages joined by ", " exactly for a validation error, and 500 "Internal server error" for anything else |
| Auth.DuplicateKeyIsConflict | server/routes/auth.js:37-87 | a duplicate key at save time gives the same reply as finding the email registered |
| Auth.Join | server/routes/auth.js:89-94 | the joined message is "" for no messages and the message itself for one; otherwise it starts with the first message followed by ", " and ends with the last |
| Auth.JoinAppend | server/routes/auth.js:89-94 | joining two non-empty lists is joining each with ", " between, so every message appears once and in order, as `messages.join(', ')` gives |
| Auth.UserStore.Signup | server/routes/auth.js:9-76 | on a failing guard the reply is that guard's and nothing is stored; otherwise exactly one user is added under its email, holding the password's hash, and the reply is 201 with the token claims and the public user |
| Auth.Login | server/routes/auth.js:105-152 | success exactly when both fields are truthy, the email is registered and the password verifies; success is 200 with the token claims and the public user; a missing or empty field gives 400 "Email and password are required"; every other rejection is 401 "Invalid email or password" |
| Auth.LoginFailuresIndistinguishable | server/routes/auth.js:117-133 | an unknown email and a wrong password both give the same 401 "Invalid email or password" |
| Auth.LoginFailureReply | server/routes/auth.js:154-169 | a failure while logging in is 400 with the joined messages exactly for a validation error, and 500 "Internal server error" otherwise |
| Auth.LoginTokenCarriesEmail | server/routes/auth.js:118-152 | on a store where every user sits under its own email, a successful login's token and public user carry the email logged in with |
| Auth.StoreLoginCarriesEmail | server/routes/auth.js:118-152 | on every valid user store (as the constructor and Signup keep it) a successful login's token carries the email logged in with |
| Auth.SignupThenLogin | server/routes/auth.js:118-152 | with sound hashing, logging in with the credentials just signed up succeeds and shows the public user that signup returned |
| Seed.Active | Anbu/server/server.js:145 | the filter never lengthens the seed list |
| Seed.ActiveMembers | Anbu/server/server.js:145 | an entry is kept exactly when it is in the seed list and its lower-cased title is not blocked |
| Seed.ActiveConcat | Anbu/server/server.js:145 | the filter keeps the order: it distributes over concatenation |
| Seed.IndexOfKey | Anbu/server/server.js:149-150 | the index found is that of the first document with exactly that title and year; nothing is found exactly when no document has the key |
| Seed.Inserted | Anbu/server/server.js:149-153 | an inserted document carries the seed's title, year, genre, director, plot and poster, the given id and time, and no createdBy |
| Seed.UpsertOne | Anbu/server/server.js:148-153 | afterwards the key is present; without a match the whole entry is appended with the next id and the current time; with a match the length and next id are kept; every old document keeps all non-poster fields; ids stay unique |
| Seed.UpsertOneTouchesFirst | Anbu/server/server.js:148-153 | only the first document with the key changes, and it carries the seed's poster |
| Seed.UpsertAll | Anbu/server/server.js:146-156 | the upsert loop keeps every old document's non-poster fields and every key, inserts at most one document per active entry and spends one id per inserted document, leaves every active entry's key present, and keeps ids unique |
| Seed.PostersByTitle | Anbu/server/server.js:162 | the map's keys are exactly the lower-cased titles of the active entries |
| Seed.PostersLastWins | Anbu/server/server.js:162 | a title's poster is that of the last active entry with that lower-cased title |
| Seed.Fill | Anbu/server/server.js:164-168 | one document keeps every field but the poster; the poster changes exactly when it is absent or "" and the lower-cased title maps to a non-empty poster, and then becomes that poster |
| Seed.Backfill | Anbu/server/server.js:163-169 | backfill keeps the length and treats each document on its own |
| Seed.BackfillEffect | Anbu/server/server.js:163-169 | a document changes exactly when its poster is absent or "" and its lower-cased title maps to a non-empty poster; it then gets that poster, keeps every other field, and needs no further backfill |
| Seed.BackfillIdempotent | Anbu/server/server.js:163-169 | backfilling twice is backfilling once |
| Seed.BlockedNeverBackfilled | Anbu/server/server.js:162-168 | a document with a blocked title is never backfilled |
| Seed.Cleanup | Anbu/server/server.js:172-181 | cleanup never adds documents; with CleanupMembers, it keeps exactly the unblocked ones |
| Seed.CleanupMembers | Anbu/server/server.js:171-181 | a document survives cleanup exactly when its lower-cased title is not blocked |
| Seed.CleanupNothingBlocked | Anbu/server/server.js:171-181 | with no blocked document present, cleanup leaves the collection as it is |
| Seed.CleanupIdempotent | Anbu/server/server.js:171-181 | cleaning up twice is cleaning up once |
| Seed.CleanupKeepsIds | Anbu/server/server.js:171-181 | cleanup keeps ids unique and below the next id |
| Seed.CleanupKeepsKey | Anbu/server/server.js:171-181 | a key whose title is not blocked is present after cleanup exactly when it was before |
| Seed.Reconciled | Anbu/server/server.js:145-181 | a run adds at most one document and one id per active seed entry, and never lowers the next id |
| Seed.ReconciledNoBlocked | Anbu/server/server.js:145-181 | after a run no document has a blocked title |
| Seed.ReconciledKeepsKeys | Anbu/server/server.js:145-181 | after a run every unblocked key that was present, and the key of every unblocked seed entry, is present |
| Seed.ReconciledWellFormed | Anbu/server/server.js:145-181 | a run keeps ids unique and below the next id |
| Seed.UpsertAllRefreshes | Anbu/server/server.js:146-156 | when every active key is already present, the upserts insert nothing and only set the posters of the first document of each key |
| Seed.ReconcileIdempotent | Anbu/server/server.js:145-181 | a second run, at any time, leaves the collection exactly as the first run left it |
| Seed.MovieCollection.Upsert | Anbu/server/server.js:148-153 | one `findOneAndUpdate` with upsert changes the collection as UpsertOne says |
| Seed.MovieCollection.UpsertSeeds | Anbu/server/server.js:146-156 | the upsert loop leaves the collection as UpsertAll says, and the count is the number of active entries |
| Seed.MovieCollection.BackfillPosters | Anbu/server/server.js:161-169 | the backfill loop leaves the documents as Backfill says and keeps the next id |
| Seed.MovieCollection.RemoveBlocked | Anbu/server/server.js:171-181 | deleting by the collected ids leaves the documents as Cleanup says (ids are unique) and keeps the next id |
| Seed.MovieCollection.Reconcile | Anbu/server/server.js:145-181 | the whole block leaves the collection as Reconciled says and reports one upsert per active entry |
| SeedData.TheDarkKnightBlocked | Anbu/server/server.js:68-143 | "The Dark Knight" lower-cases to a blocked title |
| SeedData.InceptionBlocked | Anbu/server/server.js:76-143 | "Inception" lower-cases to a blocked title |
| SeedData.InterstellarBlocked | Anbu/server/server.js:84-143 | "Interstellar" lower-cases to a blocked title |
| SeedData.JokerBlocked | Anbu/server/server.js:119-143 | "Joker" lower-cases to a blocked title |
| SeedData.DunePartTwoBlocked | Anbu/server/server.js:125-143 | "Dune: Part Two" lower-cases to a blocked title |
| SeedData.DemoChunk0 | Anbu/server/server.js:67-145 | of The Dark Knight, Inception, Interstellar and The Shawshank Redemption, only the last is kept |
| SeedData.DemoChunk1 | Anbu/server/server.js:100-145 | The Godfather, Parasite, Gladiator and Avengers: Infinity War are all kept, in order |
| SeedData.DemoChunk2 | Anbu/server/server.js:119-145 | of Joker, Titanic, Avatar and The Prestige, the last three are kept, in order |
| SeedData.DemoChunk3 | Anbu/server/server.js:123-145 | of Avengers: Endgame, The Wolf of Wall Street, Dune: Part Two and Oppenheimer, all but Dune: Part Two are kept, in order |
| SeedData.DemoActive | Anbu/server/server.js:67-145 | the active list is the eleven unblocked seed entries, in seed-list order |

## Left out

- Seed block failures. Any store error inside the seed block (server.js:183-185) is caught and logged, and startup continues with whatever phases had completed. The modelled store never fails, so the model has no partial run.
- Database connection, Express wiring, CORS, logging, `app.listen`, and async sequencing and concurrency are not modelled. Anbu/server/db/conn.js is not part of this model.
- bcrypt and JWT are function values and claims. Nothing about hash strength, salts or token expiry is modelled; `Sound` is the only assumption made about hashing, and only where stated.
- Duplicate key on save. The duplicate-key (11000) path at save time is reachable only when two signups race. The sequential model reaches it only through `SaveFailureReply`, whose reply `DuplicateKeyIsConflict` shows to equal the guard's 409.
- The User schema. server/models/User.js is not part of this model. The user store is keyed by the email string exactly as given: any trimming or lower-casing the User schema may apply is not modelled, nor are its validation errors, beyond passing them through `SaveFailureReply`.
- Truthiness covers strings only. A field is truthy when present and not ""; non-string JSON values in a request body are not modelled.
- Lower-casing is ASCII only. Full Unicode `toLowerCase` is not modelled.
- Lengths are in Unicode scalar values. Password and plot lengths count characters, not UTF-16 code units, so they differ only for characters outside the Basic Multilingual Plane.
- Documents and IDs.
  - Stored documents always have a title and an integer year.
  - A `null` poster (which neither backfill query matches) is not modelled.
  - Ids are natural numbers. ObjectId syntax and the cast error are the `Malformed` case of an id parameter.
- Seed writes skip validation. Upserts run without schema validation (no `runValidators`), and the model does not validate them either. The seed strings carry no surrounding white space, so trimming on the seed path is the identity and is not modelled there.
- Seed.UpsertAll: one time `now` serves the whole upsert loop, so every document a run inserts gets the same createdAt. Each `findOneAndUpdate` applies the `Date.now` default on its own (Movie.js:42, server.js:150-154), so in the source the documents of one run carry non-decreasing, usually distinct times in seed order. No property proved here depends on those times. But the newest-first order that GET / gives among documents inserted in one run is not captured. `Seed.MovieCollection.UpsertSeeds` and `Seed.MovieCollection.Reconcile` take the same single `now`.
- MovieModel.MovieFields: the schema's input casting is not modelled. The year path is `type: Number` (Movie.js:10), so the source also takes a numeric string such as "2008" (cast to 2008) and a fractional year such as 2000.5 (which passes min and max and is stored); a number given for a String path is cast to text. The model's paths are already `Option<int>` and `Option<string>`, so `YearWindow` and `ValidationErrors` speak only of integer years and string values.
- MovieRoutes.SortByCreatedAt: the order among documents with equal `createdAt` is left unspecified by the database. The contract states only newest-first order and the same documents.
