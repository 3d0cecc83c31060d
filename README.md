# Salon back office: a Dafny model of its service layer

This project models the service layer of a NestJS/Prisma salon back office.
The models are sequential and written in Dafny. They cover six pieces:

- **Redis service.** A key-value store with expiry times. It offers `get`,
  `set`, `delete` and `flushByPrefix`. A value is stored as its JSON text
  and parsed on read.
- **Tenancy salon directory.** It answers listing requests from a
  read-through cache keyed on the filter tuple. It clamps the page size to
  100, filters out soft-deleted salons, pages the rows newest first and
  stores each miss for 60 seconds. Every successful create, update and
  soft delete flushes all keys under the salon prefix.
- **Admin token lifecycle.** Register, login, refresh and logout act on
  each admin's stored refresh-token hash. They also act on the two session
  keys `auth:<id>:access` and `auth:<id>:refresh`.
- **Older admin sessions.** The same flows with no session keys, their own
  role and their own token lifetimes.
- **Salon-owner login.** A ladder of checks, each ending in its own
  outcome. Success marks the owner active and logout marks them inactive.
- **JWT guard.** It refuses to start without an access secret, refuses
  expired tokens and refuses a payload without a subject.

The model also covers the older salon table, with its conflict check,
name-prefix search and unclamped paging. It covers the one-off migration
that copies each user's role onto salon-user links that have none.

Each service whose methods change state is a Dafny `class`. Its tables
are `seq` fields and the store is a `map` field. Every method states its
new state as a function of the old one. Those transition functions
(`Redis.Stored`, `Redis.WithoutPrefix`, `Users.WithToken`,
`AdminAuth.AfterIssue`, `AdminAuth.AfterLogout`, `OwnerAuth.WithActive`,
`RoleMigration.Migrated`) carry the lemmas about several calls. Examples
are get after set, flush idempotence, what a refresh accepts after a
rotation, and logout idempotence.

The central property of the tenancy directory is "no stale read after a
completed write". `TenancySalons.SalonsService.CreateThenList`,
`UpdateThenList` and `SoftDeleteThenList` prove it: after a successful
write, the next listing equals the listing computed from the new table.

The model also proves a property the cache key does not have. The key
joins the raw filter values with `:` separators, so two different filter
tuples can share a key while selecting different salons
(`TenancySalons.CacheKeyCollision`). The model keeps the key as written.
Beside it, `TenancySalons.EscapedCacheKey` quotes the string fields, and
two filters that share such a key get the same answer.

Refresh-token rotation does not revoke the token it replaces. bcrypt
reads only the first 72 bytes of a token, and every token signed for one
admin begins with the same serialized claims. So a refresh accepts the
replaced refresh token and the admin's access tokens too
(`AdminAuth.PreviousTokenAccepted`, `LegacyAuth.PreviousTokenAccepted`).
The services keep the check as written. Corrected checks are modelled
beside them: one compares the token with the session key, the other
hashes the whole token. Each is proved to accept only the latest refresh
token. "## Findings" lists these three discrepancies.

The library pieces under the services are modelled concretely, so that
their properties are proved rather than assumed:

- **bcrypt** is `Crypto.Hash`. Like bcrypt, it reads only the first 72
  characters of its input, so a value matches a hash exactly when it
  agrees with the hashed value on those characters.
- **JSON** is a small JSON value type whose `Stringify` and `Parse` are
  proved to round-trip.
- **JWT** signing and verification are built from a MAC over the
  stringified payload, with `iat`/`exp` claims and an explicit clock.
  Expiry is checked only when the payload has an `exp` claim, as
  jsonwebtoken does.

Time is a natural number of seconds passed in as `now`.

## Model

| member | source | states |
|---|---|---|
| `Redis.RedisService.Get` | src/core/redis/redis.service.ts:9-12 | the value is the parsed stored text exactly when the key is live and its text is non-empty, otherwise null |
| `Redis.RedisService.Set` | src/core/redis/redis.service.ts:14-16 | the store becomes the old store with the key bound to the value's JSON text, expiring ttl seconds from now; all other keys unchanged |
| `Redis.RedisService.Delete` | src/core/redis/redis.service.ts:18-20 | the store loses exactly that key |
| `Redis.RedisService.FlushByPrefix` | src/core/redis/redis.service.ts:22-27 | the store becomes the old store minus exactly the keys that start with the prefix |
| `Redis.WithoutPrefix` | src/core/redis/redis.service.ts:22-27 | a key survives iff it was present and does not start with the prefix, and survivors keep their entries |
| `Redis.GetAfterSet` | src/core/redis/redis.service.ts:9-16 | a get before expiry returns the value that was set (JSON round trip) |
| `Redis.GetAfterExpiry` | src/core/redis/redis.service.ts:10-11 | a get at or after the expiry time returns null |
| `Redis.SetOverwrites` | src/core/redis/redis.service.ts:15 | a second set of the same key replaces the first entirely |
| `Redis.SetKeepsOtherKeys` | src/core/redis/redis.service.ts:14-16 | a set leaves what every other key reads unchanged |
| `Redis.DeleteRemovesOnlyKey` | src/core/redis/redis.service.ts:18-20 | delete removes the key, keeps all other entries, and is a no-op on an absent key |
| `Redis.FlushWithoutMatchIsNoOp` | src/core/redis/redis.service.ts:23-26 | a flush whose prefix matches no key leaves the store unchanged |
| `Redis.FlushIdempotent` | src/core/redis/redis.service.ts:22-27 | flushing a prefix twice equals flushing it once |
| `Redis.FlushedKeyMisses` | src/core/redis/redis.service.ts:22-27 | after a flush, every key under the prefix reads as null |
| `Redis.StoredWellFormed` | src/core/redis/redis.service.ts:15 | a set keeps every stored text parseable, so get never fails on data written by set |
| `TenancySalons.BuildCacheKey` | src/modules/tenancy/salons/salons.service.ts:41-55 | every key begins with the salon prefix followed by a colon |
| `TenancySalons.CacheKeyDefaults` | src/modules/tenancy/salons/salons.service.ts:43-54 | an absent page, limit or text filter gives the same key as its default (1, 10, empty); refresh and the range fields never change the key |
| `TenancySalons.CacheKeyDeterminesPage` | src/modules/tenancy/salons/salons.service.ts:54 | two filter tuples with the same key ask for the same page and the same raw, unclamped limit |
| `TenancySalons.KeyParts` | src/modules/tenancy/salons/salons.service.ts:54 | a key gives back its page, its raw limit and the text after them |
| `TenancySalons.CacheKeyCollision` | src/modules/tenancy/salons/salons.service.ts:54 | the search `x:st:A` with no status and the search `x` with status `A:st:` share one key, yet a salon named `x:st:A` with status TRIAL is selected by the first and not by the second |
| `TenancySalons.EscapedCacheKey` | src/modules/tenancy/salons/salons.service.ts:41-55 | the corrected key, with the string fields as a JSON array of strings, still begins with the salon prefix and a colon |
| `TenancySalons.EscapedFieldsApart` | src/modules/tenancy/salons/salons.service.ts:46-54 | equal escaped field texts mean equal search, status, plan, country, province and city, an absent field counting as empty |
| `TenancySalons.SameFieldsSameWhere` | src/modules/tenancy/salons/salons.service.ts:169-197 | filters that agree on every string field build the same where-object |
| `TenancySalons.EscapedKeyDeterminesAnswer` | src/modules/tenancy/salons/salons.service.ts:41-217 | two filters that share a corrected key select the same salons and get the same listing from any table |
| `TenancySalons.BuildWhere` | src/modules/tenancy/salons/salons.service.ts:169-197 | a salon satisfies the built where-object iff it is not soft-deleted, the search occurs case-insensitively in its name, email or VTA number, status and plan equal the upper-cased filter, and country, province and city equal the filter ignoring case, with each filter skipped when absent, empty or 'ALL' |
| `TenancySalons.ContainsMeansOccurs` | src/modules/tenancy/salons/salons.service.ts:171-177 | the database's case-insensitive contains is exactly "occurs at some offset after lower-casing both sides" |
| `TenancySalons.AllIsWildcard` | src/modules/tenancy/salons/salons.service.ts:179-197 | a status, plan, country, province or city filter of 'ALL' selects the same salons as no filter |
| `TenancySalons.StatusFilterIgnoresCase` | src/modules/tenancy/salons/salons.service.ts:179-181 | a status filter selects the same salons as its upper-cased form, except for the spellings of 'all' other than 'ALL', whose upper-cased form is the wildcard |
| `TenancySalons.OnlyExactAllIsWildcard` | src/modules/tenancy/salons/salons.service.ts:179-185 | the wildcard test is case-sensitive: 'ALL' lets through a salon the other filters select, while 'all', 'All' and the like select only salons whose status or plan is literally 'ALL' |
| `TenancySalons.UpperIdempotent` | src/modules/tenancy/salons/salons.service.ts:180 | upper-casing twice is upper-casing once |
| `TenancySalons.SafeLimit` | src/modules/tenancy/salons/salons.service.ts:149 | the page size is at most 100, equals the limit when that is at most 100, and is 100 otherwise |
| `TenancySalons.Matching` | src/modules/tenancy/salons/salons.service.ts:199-200 | the matching rows are exactly the table's rows that the filters select |
| `TenancySalons.Answer` | src/modules/tenancy/salons/salons.service.ts:199-217 | total counts all matching rows; page and limit are the requested page and the clamped limit; lastPage is the ceiling of total over limit; at most limit rows, newest first, each one in the table and selected by the filters |
| `TenancySalons.AnswerIsWindow` | src/modules/tenancy/salons/salons.service.ts:150-207 | the data is the matching rows sorted newest first, sliced to start at (page-1)*limit and to hold at most limit rows |
| `TenancySalons.SortedRowsMatch` | src/modules/tenancy/salons/salons.service.ts:201-206 | sorting the matching rows keeps every row in the table and selected |
| `TenancySalons.SoftDeletedNeverListed` | src/modules/tenancy/salons/salons.service.ts:169 | a salon with deletedAt set is never in a listing |
| `TenancySalons.ParseCached` | src/modules/tenancy/salons/salons.service.ts:161-165 | a cached string hit parses successfully exactly when its text is valid JSON |
| `TenancySalons.CacheHitReplaysListing` | src/modules/tenancy/salons/salons.service.ts:156-165 | within 60 seconds of storing a listing under a key, a hit on that key returns that same listing |
| `TenancySalons.FlushedListingMisses` | src/modules/tenancy/salons/salons.service.ts:113 | after the salon prefix is flushed, every listing key misses |
| `TenancySalons.RefreshAlwaysMisses` | src/modules/tenancy/salons/salons.service.ts:152-154 | with refresh 'true', the lookup after the flush always misses |
| `TenancySalons.NewSalon` | src/modules/tenancy/salons/salons.service.ts:75-110 | a new salon has the given id and time, status TRIAL, plan BASIC, no deletedAt, every scalar field and the owners of the request, the trial period as trial end when one is given, and the creator and updater when given and non-empty, null otherwise |
| `TenancySalons.Patched` | src/modules/tenancy/salons/salons.service.ts:226-231 | every field the patch sets takes the patch's value and every other field is kept; id, createdAt, deletedAt, trial end, creator and owner links never change, and an empty patch changes nothing |
| `TenancySalons.AppendWellKeyed` | src/modules/tenancy/salons/salons.service.ts:61-72 | inserting a salon whose id, VTA number and email are all new keeps them unique |
| `TenancySalons.ReplaceWellKeyed` | src/modules/tenancy/salons/salons.service.ts:226-231 | replacing a row by one with the same id and no clash with other rows keeps the keys unique |
| `TenancySalons.IndexOfId` | src/modules/tenancy/salons/salons.service.ts:229 | finds a row with that id, and finds none exactly when there is none |
| `TenancySalons.SalonsService.FindAll` | src/modules/tenancy/salons/salons.service.ts:135-223 | after the optional refresh flush, a hit returns the parsed cached value and changes nothing else; a miss returns the listing computed from the table and stores it under the key for 60 seconds |
| `TenancySalons.SalonsService.Create` | src/modules/tenancy/salons/salons.service.ts:58-132 | a taken VTA number or email fails with 'Failed to create salon', with no insert and no flush; otherwise the new salon is appended and the salon prefix flushed |
| `TenancySalons.SalonsService.Update` | src/modules/tenancy/salons/salons.service.ts:226-241 | a missing id or a clash with another row fails with 'Failed to update salon' and no change; otherwise the row is replaced by its patched form and the prefix flushed |
| `TenancySalons.SalonsService.SoftDelete` | src/modules/tenancy/salons/salons.service.ts:244-259 | a missing id fails with 'Failed to delete salon' and no change; otherwise only deletedAt is set and the prefix flushed |
| `TenancySalons.SalonsService.CreateThenList` | src/modules/tenancy/salons/salons.service.ts:58-132 | after a successful create the next listing is the one computed from the table that holds the new salon (no stale read) |
| `TenancySalons.SalonsService.UpdateThenList` | src/modules/tenancy/salons/salons.service.ts:226-241 | after a successful update the next listing is the one computed from the updated table (no stale read) |
| `TenancySalons.SalonsService.SoftDeleteThenList` | src/modules/tenancy/salons/salons.service.ts:244-259 | after a successful soft delete the next listing is computed from the new table and does not contain the deleted salon |
| `Table.FindFirst` | src/modules/tenancy/salons/salons.service.ts:61-65 | returns the first index whose row satisfies the predicate, and none exactly when no row does |
| `Table.Filter` | src/modules/tenancy/salons/salons.service.ts:199-202 | keeps exactly the rows satisfying the predicate, as a sub-multiset of the table |
| `Table.FilterCounts` | src/modules/salons/salons.service.ts:60 | each row occurs in the filtered table as often as in the table when it matches, and not at all otherwise |
| `Table.InsertSorted` | src/modules/iam/auth/users/users.service.ts:46-50 | inserting into a newest-first sequence keeps it newest first, with the new row or the old head in front |
| `Table.InsertCounts` | src/modules/iam/auth/users/users.service.ts:46-50 | inserting adds exactly that row and no other |
| `Table.SortDesc` | src/modules/iam/auth/users/users.service.ts:46-50 | the result is ordered by createdAt descending and is a permutation of the input |
| `Table.Window` | src/modules/tenancy/salons/salons.service.ts:203-204 | the window holds rows skip, skip+1, … of the input, as many as take allows and the input holds |
| `Table.WindowOfSorted` | src/modules/tenancy/salons/salons.service.ts:203-205 | a window of a sorted sequence is sorted and each of its rows is in the sequence |
| `Table.Skip` | src/modules/salons/salons.service.ts:47 | page 1 skips nothing, and skip plus one page's rows is page × limit |
| `Table.LastPageIsLeast` | src/modules/salons/salons.service.ts:73 | lastPage is the least n with n × limit ≥ total |
| `AdminAuth.SessionKeysDistinct` | src/modules/iam/auth/auth.service.ts:67-76 | the access and refresh keys are distinct, each determines its admin id, and neither falls under the salon prefix |
| `AdminAuth.LoginCheck` | src/modules/iam/auth/auth.service.ts:20-26 | login passes iff the email is known and the password matches its hash; unknown email and wrong password both fail with 'Invalid credentials' |
| `AdminAuth.RefreshCheck` | src/modules/iam/auth/auth.service.ts:30-36 | refresh passes iff the admin exists, has a stored hash and the token matches it; otherwise 'Access denied' |
| `AdminAuth.IssuedTokensVerify` | src/modules/iam/auth/auth.service.ts:50-61 | both tokens carry {sub, email, role SUPER_ADMIN}, each verifies under its own secret and both last seven days |
| `AdminAuth.SessionKeysHoldTokens` | src/modules/iam/auth/auth.service.ts:63-76 | after an issue, the admin's hash is the new refresh token's hash and the two session keys read back the two tokens until seven days pass |
| `AdminAuth.IssuedRefreshTokenAccepted` | src/modules/iam/auth/auth.service.ts:30-38 | after an issue, refreshing with the refresh token just issued passes |
| `AdminAuth.RefreshAfterIssue` | src/modules/iam/auth/auth.service.ts:30-38 | after an issue, a refresh passes iff the token agrees with the issued refresh token on its first 72 characters |
| `AdminAuth.PreviousTokenAccepted` | src/modules/iam/auth/auth.service.ts:30-64 | once id and email are 23 characters together, after a rotation the replaced refresh token (different from the new one), the replaced access token and the new access token all pass the refresh check |
| `AdminAuth.RefreshCheckLatest` | src/modules/iam/auth/auth.service.ts:30-36 | the corrected check passes iff the check as written passes and the refresh session key holds exactly this token; its failure is 'Access denied' |
| `AdminAuth.LatestRefusesRotated` | src/modules/iam/auth/auth.service.ts:30-76 | with the corrected check, while the session key lives, after an issue exactly the issued refresh token passes |
| `AdminAuth.RefreshAfterLogoutRefused` | src/modules/iam/auth/auth.service.ts:30-48 | after logout both session keys read null and every refresh attempt is refused |
| `AdminAuth.LogoutIdempotent` | src/modules/iam/auth/auth.service.ts:41-48 | logging out twice equals logging out once |
| `AdminAuth.LogoutKeepsOthers` | src/modules/iam/auth/auth.service.ts:42-45 | logout leaves every other admin's row and session keys unchanged |
| `AdminAuth.AuthService.GenerateAndStoreTokens` | src/modules/iam/auth/auth.service.ts:50-79 | the new state is the issue transition: the hash stored on the admin and both session keys set; a missing admin fails with no change |
| `AdminAuth.AuthService.Register` | src/modules/iam/auth/auth.service.ts:15-18 | a registered email fails with no change; otherwise the new admin is inserted and issued a session |
| `AdminAuth.AuthService.Login` | src/modules/iam/auth/auth.service.ts:20-28 | a failed check returns its error with no change; success issues a session to the found admin |
| `AdminAuth.AuthService.RefreshTokens` | src/modules/iam/auth/auth.service.ts:30-39 | a failed check returns 'Access denied' with no change; success rotates the session |
| `AdminAuth.AuthService.Logout` | src/modules/iam/auth/auth.service.ts:41-48 | the new state is the logout transition (hash cleared, both keys deleted) and the reply is 'Logged out'; a missing admin fails with no change |
| `Users.ByEmail` | src/modules/iam/auth/users/users.service.ts:29-33 | looks up the lower-cased email, and finds none exactly when no row has it |
| `Users.ById` | src/modules/iam/auth/users/users.service.ts:35-37 | finds the row with that id, and none exactly when there is none |
| `Users.IdFindsRow` | src/modules/iam/auth/users/users.service.ts:35-37 | in a well-formed table, an id lookup finds exactly its own row |
| `Users.NewRow` | src/modules/iam/auth/users/users.service.ts:11-27 | a new admin has the lower-cased email, a password hash that matches the given password, and no refresh token |
| `Users.WithToken` | src/modules/iam/auth/users/users.service.ts:39-44 | only that admin's refreshToken changes |
| `Users.WithTokenWellFormed` | src/modules/iam/auth/users/users.service.ts:39-44 | changing a refresh token keeps emails lower case and ids and emails unique |
| `Users.CreatedFoundByAnyCasing` | src/modules/iam/auth/users/users.service.ts:29-33 | an admin created with some email is found by any casing of it |
| `Users.UsersService.Create` | src/modules/iam/auth/users/users.service.ts:11-27 | an email whose lower-cased form is registered fails with 'Email already registered' and no insert; otherwise the new row is appended and the table stays well-formed |
| `Users.UsersService.FindByEmail` | src/modules/iam/auth/users/users.service.ts:29-33 | returns an admin with the lower-cased email, or null when none has it |
| `Users.UsersService.FindById` | src/modules/iam/auth/users/users.service.ts:35-37 | returns the admin with that id, or null when none has it |
| `Users.UsersService.UpdateRefreshToken` | src/modules/iam/auth/users/users.service.ts:39-44 | a missing id fails with the record-not-found error and no change; otherwise only that admin's refreshToken is set |
| `Users.UsersService.FindAll` | src/modules/iam/auth/users/users.service.ts:46-50 | returns every admin, each once, newest first |
| `LegacyAuth.AccessExpiresFirst` | src/modules/auth/auth.service.ts:48-61 | both tokens carry {sub, email, role ADMIN}; the access token verifies for 15 minutes and is then refused, while the refresh token verifies for seven days |
| `LegacyAuth.RefreshAfterLogoutOrIssue` | src/modules/auth/auth.service.ts:31-46 | after logout every refresh is refused; after an issue, a refresh passes iff the token agrees with the issued refresh token on its first 72 characters |
| `LegacyAuth.PreviousTokenAccepted` | src/modules/auth/auth.service.ts:31-62 | once id and email are 29 characters together, after a rotation the replaced refresh token (different from the new one), the replaced access token and the new access token all pass the refresh check |
| `LegacyAuth.RefreshCheckWhole` | src/modules/auth/auth.service.ts:31-38 | the corrected check passes iff the admin exists, has a stored hash and the whole token matches it; its failure is 'Access denied' |
| `LegacyAuth.WholeHashRefusesRotated` | src/modules/auth/auth.service.ts:31-62 | with a whole-token hash stored at issue, exactly the issued refresh token passes the corrected check |
| `LegacyAuth.LegacyAuthService.GenerateAndStoreTokens` | src/modules/auth/auth.service.ts:48-67 | signs the pair and stores the refresh token's hash on that admin only |
| `LegacyAuth.LegacyAuthService.Register` | src/modules/auth/auth.service.ts:14-18 | a registered email fails with no change; otherwise the new admin is inserted carrying the hash of its refresh token |
| `LegacyAuth.LegacyAuthService.Login` | src/modules/auth/auth.service.ts:20-29 | unknown email and wrong password fail alike with 'Invalid credentials' and no change; success stores the new hash |
| `LegacyAuth.LegacyAuthService.RefreshTokens` | src/modules/auth/auth.service.ts:31-41 | a missing admin, a null hash or a non-matching token gives 'Access denied' with no change; success rotates the hash |
| `LegacyAuth.LegacyAuthService.Logout` | src/modules/auth/auth.service.ts:43-46 | only the admin's refreshToken is cleared and the reply is 'Logged out' |
| `OwnerAuth.ByEmail` | src/modules/iam/auth/salon-owners/salonOwner-auth.service.ts:16-18 | looks up the email exactly as given, with no case folding |
| `OwnerAuth.IndexOfId` | src/modules/iam/auth/salon-owners/salonOwner-auth.service.ts:60-63 | finds the row with that id, and none exactly when there is none |
| `OwnerAuth.CheckOwnerLogin` | src/modules/iam/auth/salon-owners/salonOwner-auth.service.ts:20-33 | the checks run in order: no user or not an owner gives 'Invalid credentials', then no password gives 'Password not set. Check invitation email.', then a wrong password gives 'Invalid credentials'; login passes iff all three pass |
| `OwnerAuth.InvitedOwnerCannotLogIn` | src/modules/iam/auth/salon-owners/salonOwner-auth.service.ts:24-28 | an invited owner with the empty password is told to set one whatever is tried, and a non-owner gets the same answer as an unknown email |
| `OwnerAuth.SessionTokensVerify` | src/modules/iam/auth/salon-owners/salonOwner-auth.service.ts:41-49 | both tokens carry the user's {sub, email, role}; the access token lasts 50 minutes and the refresh token seven days |
| `OwnerAuth.WithActive` | src/modules/iam/auth/salon-owners/salonOwner-auth.service.ts:36-39 | only that user's isActive flag changes |
| `OwnerAuth.LogoutIdempotent` | src/modules/iam/auth/salon-owners/salonOwner-auth.service.ts:59-65 | logging out twice equals logging out once |
| `OwnerAuth.OwnerAuthService.Login` | src/modules/iam/auth/salon-owners/salonOwner-auth.service.ts:15-56 | every failure returns its error and leaves the table unchanged; success marks only that user active and returns both tokens with {id, email, role} |
| `OwnerAuth.OwnerAuthService.Logout` | src/modules/iam/auth/salon-owners/salonOwner-auth.service.ts:59-65 | a missing id fails with no change; otherwise only that user is marked inactive and the reply is 'Logged out successfully' |
| `JwtStrategy.Construct` | src/modules/iam/auth/strategies/jwt.strategy.ts:9-23 | fails with 'JWT_ACCESS_SECRET is not defined in .env' iff the secret is unset or empty; otherwise uses the secret with expiration enforced |
| `JwtStrategy.Validate` | src/modules/iam/auth/strategies/jwt.strategy.ts:26-33 | passes iff the payload is truthy and has a truthy sub, returns it unchanged, and fails with 'Invalid token payload' otherwise |
| `JwtStrategy.Authenticate` | src/modules/iam/auth/strategies/jwt.strategy.ts:9-33 | a request passes iff its token verifies under the secret and the payload is truthy with a truthy subject, and then yields that payload; a token that does not verify gives 'Unauthorized' |
| `JwtStrategy.SignedTokenPasses` | src/modules/iam/auth/strategies/jwt.strategy.ts:19-32 | a token signed with the access secret passes while live and yields its payload, is refused once expired, and is refused with an empty subject |
| `LegacySalons.IndexOfId` | src/modules/salons/salons.service.ts:79-83 | finds the row with that id, and none exactly when there is none |
| `LegacySalons.NewRow` | src/modules/salons/salons.service.ts:29-36 | the new row has the given id and time and every scalar field of the request; it links the given owner ids when the request has owners, and none otherwise |
| `LegacySalons.AppendWellKeyed` | src/modules/salons/salons.service.ts:24-36 | inserting a row whose id, VTA number and email are all new keeps them unique |
| `LegacySalons.ReplaceWellKeyed` | src/modules/salons/salons.service.ts:88-105 | replacing a row by one with the same id and no clash with other rows keeps the keys unique |
| `LegacySalons.Patched` | src/modules/salons/salons.service.ts:93-104 | every scalar field the patch sets takes the patch's value and every other field is kept; the owner links are replaced only by a non-empty list; id and createdAt are kept |
| `LegacySalons.NoSearchMatchesAll` | src/modules/salons/salons.service.ts:49-58 | with no search term every row matches |
| `LegacySalons.RemoveKeepsOthers` | src/modules/salons/salons.service.ts:113 | removing a row loses exactly that row, and no other row has its id |
| `LegacySalons.SalonsService.Create` | src/modules/salons/salons.service.ts:19-39 | a taken VTA number or email fails with 'VTA or Email already exists' and no insert; otherwise the new row is appended |
| `LegacySalons.SalonsService.FindAll` | src/modules/salons/salons.service.ts:42-75 | the rows whose name starts with the search ignoring case (all rows without one), newest first, from (page-1)*limit, at most limit rows; total counts all matches and lastPage is the ceiling of total over limit |
| `LegacySalons.SalonsService.FindOne` | src/modules/salons/salons.service.ts:78-85 | returns the salon with that id, and fails with 'Salon not found' exactly when there is none |
| `LegacySalons.SalonsService.Update` | src/modules/salons/salons.service.ts:88-106 | a missing id fails with 'Salon not found' and no change; a patch that gives the row another salon's VTA number or email fails with the store's unique-constraint error and no change; otherwise only that row is replaced by its patched form |
| `LegacySalons.SalonsService.Remove` | src/modules/salons/salons.service.ts:109-115 | a missing id fails with 'Salon not found' and no change; otherwise exactly that row is removed and the reply is 'Salon deleted successfully' |
| `RoleMigration.Filled` | migrateUserRoleToSalonUser.ts:10-14 | a link with a role is kept; one without takes its user's role; no other field changes |
| `RoleMigration.Migrated` | migrateUserRoleToSalonUser.ts:9-16 | every link is migrated, in place and in order |
| `RoleMigration.MigrationIdempotent` | migrateUserRoleToSalonUser.ts:9-16 | a second run changes nothing |
| `RoleMigration.MigrationFillsEveryRole` | migrateUserRoleToSalonUser.ts:9-15 | after the run every link has a role, and a truthy one when its user's role is non-empty |
| `RoleMigration.CopyUserRoles` | migrateUserRoleToSalonUser.ts:4-19 | the loop leaves the rows equal to the migrated rows |
| `Json.ParseStringify` | src/core/redis/redis.service.ts:9-16 | parsing the text of a stringified value gives the value back |
| `Json.StringifyInjective` | src/core/redis/redis.service.ts:15 | different values never stringify to the same text |
| `Crypto.HashMatches` | src/modules/iam/auth/users/users.service.ts:17 | a password always matches its own hash |
| `Crypto.Read72` | src/modules/iam/auth/auth.service.ts:35 | bcrypt reads the value's first 72 characters, or all of a shorter value |
| `Crypto.MatchesIffSamePrefix` | src/modules/iam/auth/auth.service.ts:35-36 | a value matches another's hash iff the two agree on the part bcrypt reads |
| `Crypto.LongValuesShareHash` | src/modules/auth/auth.service.ts:37 | two values of 72 characters or more with the same first 72 match each other's hash |
| `Crypto.MatchesWholeIffEqual` | src/modules/auth/auth.service.ts:37 | under the corrected whole-value hash a value matches only its own hash |
| `Jwt.VerifySigned` | src/modules/iam/auth/strategies/jwt.strategy.ts:14-20 | a token signed under a secret verifies under it, yielding its payload, until it expires |
| `Jwt.Verify` | src/modules/iam/auth/strategies/jwt.strategy.ts:16-20 | an accepted token parses as its payload and a signature; with expiration enforced, its `exp`, when present, is a number later than now |
| `Jwt.VerifyExpOnlyWhenPresent` | src/modules/iam/auth/strategies/jwt.strategy.ts:19 | with expiration enforced, a signed payload without `exp` is accepted at every time and one with a non-numeric `exp` is refused; with expiration ignored every signed payload is accepted |
| `Jwt.HeadLength` | src/modules/iam/auth/auth.service.ts:51 | the serialized claims before `iat` are at least 38 characters plus the id, email and role |
| `Jwt.SignStartsWithHead` | src/modules/iam/auth/auth.service.ts:51-61 | every token signed for some claims begins with those claims serialized up to `iat`, whatever the secret, lifetime and time |
| `Jwt.SameClaimsShareHash` | src/modules/iam/auth/auth.service.ts:51-61 | once the serialized claims reach 72 characters, any two tokens signed for them match each other's bcrypt hash |
| `Jwt.SignsDiffer` | src/modules/iam/auth/auth.service.ts:53-61 | tokens for the same claims signed at different times differ |
| `Json.QuoteLength` | src/core/redis/redis.service.ts:15 | a quoted string is at least two characters longer than the string |
| `Jwt.VerifyRejectsExpired` | src/modules/iam/auth/strategies/jwt.strategy.ts:19 | an expired token is refused when expiration is not ignored |
| `Text.LowerIsLowerCase` | src/modules/iam/auth/users/users.service.ts:12 | a lower-cased email is lower case |
| `Text.LowerFixesLowerCase` | src/modules/iam/auth/users/users.service.ts:12-31 | lower-casing leaves a string unchanged iff it is already lower case, and twice is once |
| `Text.DecimalRoundTrip` | src/modules/tenancy/salons/salons.service.ts:54 | the decimal text of a number in the cache key reads back as that number |
| `Text.DecimalInjective` | src/modules/tenancy/salons/salons.service.ts:54 | different page or limit numbers give different decimal texts |

## Left out

- Controllers and their query parsing (`Number(x) || 1`, `req.user`) are routing. Module files, app configuration and the logging interceptor are wiring. None of them is modelled.
- The value of `SALON_CACHE_PREFIX` is not modelled because `src/core/redis/redis.constants.ts` is not part of this model. The model uses the literal `"salons"`, with no glob metacharacters and disjoint from `auth:`. Redis `KEYS` glob matching is modelled as a plain prefix test.
- `REDIS_DEFAULT_TTL` is not modelled for the same reason. `Redis.RedisService.Set` takes the ttl explicitly and requires it to be positive, as every caller passes one.
- Concurrency is not modelled. Every call runs to completion before the next one starts, so the race between a flush and a concurrent miss that repopulates the cache is out of scope.
- Prisma transactions and `connectOrCreate` of owner users are not modelled. In the tenancy `create`, owners are kept as the request's owner records, and no user rows are created or connected.
- The tenancy error handlers are not modelled. P2002, P2014 and the re-thrown duplicate check are folded into one failure per operation ('Failed to create salon', 'Failed to update salon', 'Failed to delete salon'). The unique-key clash that P2002 guards on update is modelled as an explicit check on VTA number and email that fails with no change.
- Tenancy `update` receives `data: any`. It is modelled as a patch of the salon's named scalar fields, and owner links are never changed by it.
- Tenancy `remove` (salons.service.ts:18-34) is not modelled. It does not await the update, so no flush-after-write order holds. `findOne` and `setOwnerPassword` only throw 'Method not implemented', so they are left out too.
- `TenancySalons.SalonsService.FindAll`: the claim that the table is not read on a cache hit is not stated. The contract states only that the reply is the cached value and that the table is unchanged.
- `TenancySalons.ParseCached`: the model parses what `redis.get` returns. That is the listing's JSON text, because the service stringifies the response before `set` stringifies it again. A cached number or boolean reads back as itself. A cached array or object is treated as a parse error, where JavaScript would call `toString` on it first.
- Dates are natural numbers of seconds, both in rows and in cached JSON. JavaScript `Date` objects and their ISO strings are not modelled.
- Lifetimes such as '7d', '15m' and '50m' are modelled as seconds. Duration-string parsing is left out.
- Floating point is not modelled. Page and limit are natural numbers, and the listing operations require `page >= 1` and `limit >= 1`, so the Infinity and NaN cases of `limit = 0` and negative pages are out of scope.
- `Number(dto.employeeCount)` is not modelled. The count is taken as a natural number, so a NaN count cannot arise.
- Collation is ASCII only. Case-insensitive matching uses ASCII lower- and upper-casing.
- Equal `createdAt` values may come back in any order from the database. The model's sort is one fixed order among those allowed, and the contracts state only the descending order and the permutation.
- bcrypt salting and cost are not modelled. `Crypto.Hash` is deterministic. It keeps bcrypt's 72-byte limit but counts characters. Tokens are ASCII, so for them the two agree. A password is user input: for a password with non-ASCII characters the model counts characters where bcrypt counts UTF-8 bytes.
- `Crypto.HashWhole`, the corrected hash, stands for bcrypt over a SHA-256 digest of the value. The digest is taken to be collision-free.
- JWT signing uses a stand-in MAC over the stringified payload, not HMAC-SHA256, and tokens are not base64url-encoded. There is no JOSE header, so a token begins with its payload. The payload's text still begins with the same 72 characters for every token of one admin, as the base64url text does.
- The older salon table's schema is not part of this model. `LegacySalons.WellKeyed` takes VTA number and email as unique columns, as the conflict check in `create` implies. An `update` that breaks this fails with the store's error (`Errors.UNIQUE_CONSTRAINT_FAILED`, Prisma's P2002), which the service does not catch.
- The secrets are constants of each service object rather than values read from `process.env`. Only the guard models an absent secret.
- The older admin sessions import their admin table from `src/modules/auth/users`, which is not part of this model. `Users` stands in for it.
- `refresh` is read from the tenancy filters although the filter DTO does not declare it. The model includes it as an optional field.
- Console logging is left out. That covers 'CACHE HIT', 'DB HIT', error logs and 'Roles copied successfully!'.
- The migration's database disconnect and its error catch are left out.

## Findings

| source | as written | input that shows it | evidently intended | confidence | as-written member | corrected member |
|---|---|---|---|---|---|---|
| src/modules/iam/auth/auth.service.ts:35 | the refresh token is checked against the stored bcrypt hash, which reads only the token's first 72 bytes; every token signed for one admin begins with the same serialized claims | an admin with a 36-character uuid id logs in twice; the first login's refresh token, or either access token, then passes `refreshTokens` | rotation revokes the replaced refresh token, and only the latest refresh token refreshes | not executed | `AdminAuth.PreviousTokenAccepted` | `AdminAuth.LatestRefusesRotated` |
| src/modules/auth/auth.service.ts:37 | the same bcrypt comparison of the whole token against a hash of its first 72 bytes | an admin with a uuid id logs in twice; the first refresh token, or either access token, still refreshes | only the refresh token issued last refreshes | not executed | `LegacyAuth.PreviousTokenAccepted` | `LegacyAuth.WholeHashRefusesRotated` |
| src/modules/tenancy/salons/salons.service.ts:54 | the string filters are joined after `:` tags with no escaping | search `x:st:A` with no status, then search `x` with status `A:st:`: one key, and the second request is answered with the first one's page, which lists a TRIAL salon named `x:st:A` that the second does not select | a cached answer is only replayed for filters that select the same salons | not executed | `TenancySalons.CacheKeyCollision` | `TenancySalons.EscapedKeyDeterminesAnswer` |
