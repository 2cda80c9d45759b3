# Subscription ledger and account validation, modelled in Dafny

This project models the core of a small subscription web service: a plan
catalog, a per-user subscription ledger with a single-active-subscription
rule, and the account endpoints' validation cascades. Each HTTP handler is
a pure step function over immutable state (a map of plans, a sequence of
subscription records, a sequence of users) returning either the new state
with the record or user it concerns, or the error it reports. A failed step
returns no new state, so nothing changes on failure by construction.

Modules follow the source files:

- `Wrappers` (wrappers.dfy): `Option` and `Result`.
- `SubscriptionModels` (subscription_models.dfy): plans (`price` as integer
  cents with at most ten digits, `durationDays` a `nat`, `active` defaulting
  to true), subscription records (defaults for start and active), field
  validation of new plans, and the table's default newest-first ordering.
- `SubscriptionViews` (subscription_views.dfy): plan listing and creation,
  `Subscribe`, `Upgrade`, `Cancel`, `GetActive`, `History`, and the
  invariants: at most one active record per user, records refer to existing
  plans, records are deactivated and never deleted. `Run` folds any
  sequence of requests; the invariants are proved over every such sequence.
- `SubscriptionScenario` (subscription_scenario.dfy): the lifecycle walk
  subscribe, refused re-subscribe, refused downgrade, upgrade, cancel, history.
- `AccountErrors`, `AccountModels`, `AccountSerializers`, `AccountViews`: the
  error codes, the user table and its manager guards, the login cascade,
  registration's `create`, the read-only field sets, and the registration and
  profile handlers.

The ledger holds every user's records; a record's position is its primary
key, since rows are appended in creation order and never removed. The
active-record lookup `filter(user, is_active=True).first()` under the
table's `-start_date` ordering is `FirstActive`: the active record of the user
with the latest start. Under the single-active invariant it is the only one.

Where the code and its own API description disagree
(subscription/views.py:49 versus :63-69), the model follows the code:
`subscribe` refuses a user who already has an active record rather than
cancelling it.

Facts of the field types (subscription/models.py:7-8) that the model keeps:

- A plan's duration may be zero: a positive-integer column admits 0. Its
  maximum is the database's integer maximum, 2147483647.
- A plan's price may be negative: the decimal column has ten digits, two of
  them decimal, and no lower bound.

Exception paths of registration that the model keeps:

- `UserSerializer.create` reads `full_name` and `phone` by key. If either is
  absent from the validated data, a `KeyError` is raised, and registration
  answers 500 with the message `'full_name'` or `'phone'`.
- An empty error mapping makes `next(iter(errors))` raise `StopIteration`,
  which gives a 500 with an empty message. A field with no messages raises
  `IndexError`, which gives a 500 with `list index out of range`. The
  validation library reports failure only with a non-empty mapping of
  non-empty message lists, so neither path is reachable through it; both
  are kept because the model takes the validation verdict as an arbitrary
  input, and the handler's code would answer them this way.

Inputs the model takes as parameters: the clock (`now`, and for `Upgrade`
the two readings `closedAt` and `now`), the fresh primary key the database
assigns, `normalize_email`, the password hasher, the authentication backend
(an `AuthAnswer` oracle), token issuance, and the verdict of registration's
serializer field validation.

## Model

| member | source | states |
|---|---|---|
| SubscriptionModels.PlanErrors | subscription/models.py:6-8 | a new plan is refused exactly for a blank name, a name over 50 characters, a non-blank name another plan has (a blank name stops the other name checks), a price with more than ten digits, a negative duration, or a duration over the integer column's maximum; no errors exactly when every field is acceptable |
| SubscriptionModels.NewPlan | subscription/models.py:5-9 | a plan created without an active flag is active; the given name, price and duration are kept |
| SubscriptionModels.NewRecord | subscription/models.py:19-24 | a record created without start or active flag starts now and is active; given values are kept |
| SubscriptionModels.OrderNewestFirst | subscription/models.py:31 | the default ordering is a permutation of the rows with starts non-increasing |
| SubscriptionViews.Closed | subscription/views.py:207-209 | deactivation changes only the end (set to the deactivation instant) and the active flag (false) |
| SubscriptionViews.FirstActive | subscription/views.py:155-158 | the lookup finds an active record of the user with the latest start among them, and finds none exactly when the user has no active record |
| SubscriptionViews.FirstActiveIsTheActive | subscription/views.py:96-99 | under the single-active invariant the lookup returns the user's one active record |
| SubscriptionViews.ListPlans | subscription/views.py:30-33 | the listing holds exactly the active plans, each once, with their catalog values, cheapest first |
| SubscriptionViews.CreatePlan | subscription/views.py:35-40 | creation fails with all validation errors and stores nothing, or adds exactly the new plan under the fresh key, active unless told otherwise, leaving other plans alone |
| SubscriptionViews.CreatePlanKeepsCatalogWellFormed | subscription/models.py:6 | a stored plan keeps names non-blank, at most 50 characters and unique across the catalog |
| SubscriptionViews.Subscribe | subscription/views.py:53-83 | a missing or inactive plan gives PlanNotFound; otherwise any active record gives AlreadySubscribed; success appends exactly one active record for the plan starting now and ending duration days later, all earlier records untouched |
| SubscriptionViews.Upgrade | subscription/views.py:145-182 | PlanNotFound exactly when the plan is missing or inactive; with a current record, InvalidUpgrade exactly when the new price does not exceed the current plan's price; success closes the current record at the first clock reading, changes no other record, and appends one active record for the new plan, whose price strictly exceeds the old one; with no active record it appends like subscribe |
| SubscriptionViews.Cancel | subscription/views.py:195-211 | with no active record it fails with NoActiveSubscription; otherwise only the current record changes, to inactive with end now, and the ledger keeps its length |
| SubscriptionViews.HttpStatus | subscription/views.py:150-161 | a refusal answers 404 exactly when it is the failed plan lookup, and 400 otherwise |
| SubscriptionViews.RefusalStatus | subscription/views.py:53-211 | subscribe and upgrade refuse with 404 exactly when the plan is not offered, and with 400 otherwise; cancel refuses only with 400 |
| SubscriptionViews.GetActive | subscription/views.py:92-105 | returns an active record of the user, from the ledger, with the latest start, or none exactly when the user has no active record |
| SubscriptionViews.OwnedBy | subscription/views.py:119 | the user's records: each record of the user as often as in the ledger, no record of anyone else |
| SubscriptionViews.History | subscription/views.py:115-121 | the history is every record of the user, active or not, and nothing else, ordered most recent start first |
| SubscriptionViews.SubscribeKeepsSingleActive | subscription/views.py:63-80 | a successful subscribe keeps at most one active record per user |
| SubscriptionViews.UpgradeKeepsSingleActive | subscription/views.py:155-179 | a successful upgrade keeps at most one active record per user |
| SubscriptionViews.CancelKeepsSingleActive | subscription/views.py:199-209 | a successful cancel keeps at most one active record per user |
| SubscriptionViews.Apply | subscription/views.py:53-211 | a request leaves the ledger unchanged on failure; on success every earlier record stays in place, unchanged or the caller's active record deactivated; plan references stay valid |
| SubscriptionViews.ApplyKeepsSingleActive | subscription/views.py:53-211 | any one subscribe, upgrade or cancel request keeps at most one active record per user |
| SubscriptionViews.Run | subscription/views.py:53-211 | after any sequence of requests the ledger is no shorter and its plan references stay valid |
| SubscriptionViews.RunKeepsSingleActive | subscription/views.py:53-211 | after any sequence of requests no user holds two active records |
| SubscriptionViews.RunNeverDeletes | subscription/views.py:163-167 | no record is ever deleted; user, plan and start never change; a deactivated record never changes again |
| SubscriptionViews.RunGetActiveIsTheActive | subscription/views.py:92-105 | after any sequence of requests the active lookup returns the user's one active record, or none exactly when there is none |
| SubscriptionViews.UpgradeWithoutActiveIsSubscribe | subscription/views.py:160-179 | with no active record, upgrade gives the same result as subscribe |
| SubscriptionViews.SubscribeRefusesWhereUpgradeProceeds | subscription/views.py:63-69 | with an active record, subscribe is refused with AlreadySubscribed while an upgrade to a dearer offered plan succeeds |
| SubscriptionViews.ApplyKeepsStartOrder | subscription/views.py:71-80 | a request served no earlier than every existing start keeps starts in creation order |
| SubscriptionViews.HistoryIsReverseCreation | subscription/models.py:31 | when the clock never ran backwards, the history is the user's records in reverse order of creation |
| SubscriptionScenario.Lifecycle | subscription/views.py:53-211 | the handlers' own results along the walk: subscribe to 10.00 for 30 days yields the one-record ledger; re-subscribe and a move to 5.00 are refused; the move to 20.00 yields the ledger with the first record closed at the move and a second opened; cancel yields both closed; the history lists both records newest first |
| AccountErrors.ExceptionText | account/models.py:9-27 | `str(e)` of each modelled exception; a 500 can carry only the KeyError, StopIteration, IndexError and unique-violation texts (StopIteration and IndexError only for a validation verdict the library never gives) (the manager's ValueErrors are raised only outside the handlers); the text is empty exactly for StopIteration, and a missing key is shown quoted |
| AccountErrors.ExceptionTextIdentifiesFault | account/views.py:64-69 | two modelled exceptions give the same message exactly when they are the same exception; in particular the four texts a 500 can carry identify the fault, with the key or column recoverable |
| AccountModels.NewUser | account/models.py:35-38 | a user created without flags is a user, not an admin, active, not a superuser and not staff |
| AccountModels.Insert | account/models.py:32-34 | storing a user succeeds exactly when neither its email nor its given phone is taken, and then appends it |
| AccountModels.InsertKeepsUniqueAccounts | account/models.py:32-34 | storing keeps keys and emails unique, and phones unique when present |
| AccountModels.CreateUser | account/models.py:9-15 | an empty email raises and stores nothing; a non-empty email fails only on a unique violation; success stores one user with the normalised email, a hashed or unusable password, and the extra fields with the model's defaults for absent flags |
| AccountModels.SuperuserDefaults | account/models.py:18-20 | staff, superuser and active default to true when not supplied; other fields are kept |
| AccountModels.CreateSuperuser | account/models.py:17-27 | staff not true is refused first, then superuser not true, both before the email check; otherwise it is create_user with the defaults, giving a staff superuser |
| AccountModels.CreateUserKeepsUniqueAccounts | account/models.py:9-27 | creating a user or superuser keeps keys, emails and phones unique |
| AccountSerializers.Login | account/serializers.py:9-93 | empty email gives EMAIL_REQUIRED whatever the password; then empty password gives PASSWORD_REQUIRED; then an identifier matching no email or phone gives USER_NOT_FOUND; then failed authentication gives INVALID_CREDENTIALS; then an inactive user gives ACCOUNT_INACTIVE; success exactly otherwise, with status success, the six user fields and both tokens |
| AccountSerializers.UnknownUserNeverAuthenticates | account/serializers.py:33-41 | for an unknown identifier the login outcome is a failure that does not depend on the authenticator |
| AccountSerializers.CreateRegistered | account/serializers.py:105-116 | an absent full name or phone raises a KeyError; success stores one user that is a user and active whatever the input, with the hashed password |
| AccountSerializers.UserSerializerReadOnly | account/serializers.py:118-122 | the email is read-only exactly when an instance is bound; the user and active flags always are |
| AccountSerializers.ApplyPatch | account/serializers.py:125-129 | a partial update changes a field only when it is writable and given; key, password and staff and superuser flags never change |
| AccountSerializers.UpdateKeepsProtectedFields | account/serializers.py:128-129 | through the update serializer, email and the user, active and admin flags survive any patch; only full name and phone change |
| AccountSerializers.BoundUserSerializerKeepsEmail | account/serializers.py:118-122 | `get_fields` makes the email read-only once an instance is bound, so no patch of the remaining writable fields can change it |
| AccountViews.CodeFor | account/views.py:49-59 | email, password, phone and username get INVALID_EMAIL, INVALID_PASSWORD, INVALID_PHONE and INVALID_USERNAME; every other field, `non_field_errors` included, gets VALIDATION_ERROR |
| AccountViews.Register | account/views.py:21-69 | invalid input gives 400 with the first field and its first message and mapped code; a taken raw email gives EMAIL_EXISTS; success gives 201 and exactly the table `create` produces: one new user, active and a user but neither admin, staff nor superuser, carrying the fresh key, the submitted email, full name and phone and the hashed password, and the response shows that user; every non-201 answer stores nothing; 500 with SERVER_ERROR exactly when an exception arises, carrying the message of that exception: the KeyError from create, StopIteration for no errors, IndexError for a field with no messages (these two only for a verdict the validation library never gives) |
| AccountViews.ServerFault | account/views.py:64-69 | an exception becomes a 500 whose code is SERVER_ERROR and whose message is the exception's message |
| AccountViews.RegisterKeepsUniqueAccounts | account/views.py:26-43 | registration keeps keys, emails and phones unique |
| AccountViews.RegisterTwiceIsRefused | account/views.py:28-34 | after a successful registration, a second valid registration with the same email is refused with EMAIL_EXISTS and stores nothing |
| AccountViews.ShowProfile | account/views.py:78-82 | the profile shows the caller's key, email, full name, phone and user and active flags |
| AccountViews.UpdateProfile | account/views.py:84-88 | a valid patch changes the stored row's full name and phone, as given, and nothing else (email, password and every flag are kept), and is answered with 202 and the saved row's seven fields; invalid data yields no response |

## Left out

- HTTP routing, API documentation decorators and permission classes: the handlers take the authenticated user as a parameter. The anonymous-read, authenticated-write rule on the plan endpoint is not modelled.
- Time: the clock is a parameter. Upgrade takes the two readings its handler makes, with no ordering required between them. Instants are whole seconds.
- SubscriptionModels.PlanErrors: the duration maximum is the default integer range that model validation takes from the database; a backend with a different range would accept or refuse different durations.
- Date arithmetic limits: the overflow a very large duration causes in the date library is not modelled.
- Expiry: no code deactivates a record when its end passes, and the model adds no sweep.
- Concurrency: requests are served one at a time. The check-then-insert race between two concurrent requests is not modelled.
- Ties in the default ordering: records with equal starts have no defined database order. The model puts the later-created first.
- subscription/serializers.py is not part of this model. Plan validation is derived from the plan fields' constraints, and whitespace trimming of names is not modelled.
- SubscriptionViews.Upgrade: requires that every record's plan is in the catalog. The plan foreign key with cascading delete guarantees this in the database.
- SubscriptionViews.Cancel: the handler answers with a message only; the model also returns the closed record.
- Email normalisation, password hashing, token issuance and the authentication backend (account/backends.py) are uninterpreted inputs. So are the backend's lookup by email or phone and its multiple-match case.
- AccountSerializers.Login: models `validate` alone. The inherited token serializer declares email and password as required, non-blank fields and rejects an empty one before `validate` runs, so on the real endpoint the EMAIL_REQUIRED and PASSWORD_REQUIRED branches are reached only when that field validation is bypassed.
- AccountSerializers.Login: the parent serializer authenticates a second time before issuing tokens. The model assumes that second attempt agrees with the first. Recording the last login time is not modelled.
- Registration's serializer field validation: it enters only as its verdict. Its unique-email validator, which in practice fires before the EMAIL_EXISTS branch, is not modelled.
- Primary keys: the key the database assigns to a new plan or user is a parameter, required to be unused.
- Python truthiness: a missing email or password is the empty string, and the superuser flags are booleans or absent, not arbitrary objects.
- AccountModels.Insert: names the email column when both email and phone collide. Which constraint the database reports first is backend-specific.
- Unique-violation messages follow SQLite's wording. Other backends word them differently.
- Writes through `UserSerializer` bound to an instance: the handlers never bind it with both an instance and data. `BoundUserSerializerKeepsEmail` states only the read-only email that `get_fields` sets; a `Patch` has no password field.
- Timestamps `created_at` and `updated_at`, the users' default ordering, token refresh, and the admin site.
