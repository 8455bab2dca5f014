# kioskng-api core, modelled in Dafny

kioskng-api is the back end of a self-service kiosk. It consists of four AWS Lambda handlers over DynamoDB tables and a JWT authorizer in front of them:

- **transactions**: an append-only ledger of account movements. PUT checks the sign of the amount for WITHDRAW (negative) and DEPOSIT (positive), and only that a `product` is present for BUY_PRODUCT; any other action is not checked. It then stamps a fresh id and a `transaction_result`.
- **media-mappings**: maps a (media type, media identification) pair, such as an RFID card, to an account. PUT refuses a pair that is already mapped.
- **accounts**: PUT creates an account under a fresh id, POST replaces an existing one, DELETE removes one, GET lists them.
- **products**: a catalogue keyed by EAN, written by unconditional upserts.
- **authorizer**: turns the groups and username of an already verified token into an IAM policy that allows or denies `execute-api:Invoke`.

How each handler is modelled:

- Each handler is a class holding its table. A keyed table is a `map<string, Item>`; the ledger is a `seq<Item>`.
- Each handler's routing and each of its `handle*` and `get*` methods is a method. Its `ensures` gives the status code, the body and the new table for every branch of the code.
- What a verb answers is one predicate per handler and verb (`AnswersGet`, `AnswersPut`, `AnswersPost`, `AnswersDelete`; for the ledger, the function `PutOutcome`). The verb's method and the routing method both ensure it, so the routing method's contract says, verb by verb, what the handler answers and leaves.
- Requests and items are JSON values (`JsValues.Json`). The JavaScript coercions that the ledger's checks rely on are written out in `JsValues`: `<` and `>` against 0, and `number + value`.
- The authorizer's policy decision is a set of pure functions.

Environment inputs become parameters of the methods:

- the payload validator is a predicate `validate`;
- `crypto.randomUUID()` is a `freshId`;
- each store call's failure is a boolean (`readFails`, `scanFails`, `writeFails`, `storeFails`). When it is set, the call fails and nothing changes.

A failure the code catches answers 500. One it does not catch, such as any transactions store call, is the response `Thrown`.

The properties proved:

- **Transactions**:
  - the 406 rules, as if-and-only-ifs;
  - PUT only appends one entry;
  - the fields of the stored entry.
- **Running balance**: the ledger invariant `Balanced` (per account, the results are the prefix sums of the amounts) is stated separately, because the code does not keep it. With the prior balance taken from the ledger, it is preserved by every PUT and by every sequence of PUTs whose accepted amounts are numbers. A string amount is concatenated, not added, so it breaks the invariant.
- **Media mappings**:
  - the uniqueness of pairs;
  - which PUTs preserve it;
  - GET by pair returns a matching mapping.
- **Accounts**:
  - POST never creates a key;
  - DELETE is idempotent;
  - GET never answers 404.
- **Products**: PUT is an upsert under the ean.
- **Authorizer**: Allow exactly for admin tokens that carry a username.

## Model

| member | source | states |
|---|---|---|
| Transactions.WithdrawNeedsNegativeAmount | src/transactions/DynamoRestfulHandler.js:67-73 | A WITHDRAW is answered 406 with its message, writing nothing, exactly when `transaction_amount < 0` is false. That includes a missing amount. For a numeric amount, it is 406 iff the amount is at least 0. |
| Transactions.DepositNeedsPositiveAmount | src/transactions/DynamoRestfulHandler.js:75-81 | A DEPOSIT is answered 406 with its message, writing nothing, exactly when `transaction_amount > 0` is false. That includes a missing amount. For a numeric amount, it is 406 iff the amount is at most 0. |
| Transactions.BuyProductNeedsProduct | src/transactions/DynamoRestfulHandler.js:86-95 | A BUY_PRODUCT is answered 406 with its message, writing nothing, exactly when `product` is falsy. |
| Transactions.OtherActionsSkipSignCheck | src/transactions/DynamoRestfulHandler.js:67-105 | Any other action, and a BUY_PRODUCT with a product, has no sign check: with any amount it is written, 201 with the new entry appended. Without an amount the result is NaN and the put throws, leaving the ledger unchanged. |
| Transactions.AcceptedPutAppendsOne | src/transactions/DynamoRestfulHandler.js:84-105 | An accepted PUT with an amount keeps the old ledger as a prefix, appends exactly the new entry and answers 201. A failing write throws and leaves the ledger unchanged. |
| Transactions.NewEntryFields | src/transactions/DynamoRestfulHandler.js:56-84 | For a numeric amount, the stored result is the integer sum of prior balance and amount. The entry keeps the request's account and amount. |
| Transactions.Refusal | src/transactions/DynamoRestfulHandler.js:67-95 | The 406 message, when there is one, is one of the three, and each message implies its action. A request with none of the three actions is never refused. |
| Transactions.NewEntry | src/transactions/DynamoRestfulHandler.js:56-84 | The stored entry has exactly the request's fields plus `id` and `transaction_result`: the fresh id and prior balance + amount. Every other field is kept. |
| Transactions.NaNResultIffNoAmount | src/transactions/DynamoRestfulHandler.js:84 | The stored result is NaN exactly when the amount is missing or NaN. |
| Transactions.PutOutcome | src/transactions/DynamoRestfulHandler.js:54-106 | A PUT either leaves the ledger or appends exactly the new entry; it appends iff it answers 201. It answers 406 iff the request is refused. It throws iff it is not refused and the write fails or the result is NaN. |
| Transactions.PriorBalance | src/transactions/DynamoRestfulHandler.js:62-63 | 0 for an account without entries; a non-zero prior balance is the result of one of the account's entries. |
| Transactions.ApplyPutsOnlyAppends | src/transactions/DynamoRestfulHandler.js:54-106 | A sequence of PUTs keeps the old ledger as a prefix and adds at most one entry per request. |
| Transactions.PutOnlyAppends | src/transactions/DynamoRestfulHandler.js:54-106 | Whatever the request, PUT leaves the old ledger as a prefix and adds at most one entry. |
| Transactions.LatestEntry | src/transactions/DynamoRestfulHandler.js:62-63 | The account's most recent entry: None iff the account has no entry; otherwise an entry of that account with no later one. |
| Transactions.PrefixSumsAt | src/transactions/DynamoRestfulHandler.js:62-64 | Element i of the running totals is the sum of the first i+1 amounts. |
| Transactions.LatestIsLastOfAccount | src/transactions/DynamoRestfulHandler.js:62-63 | The most recent entry of an account is the last of that account's entries, in append order. |
| Transactions.PriorBalanceIsLastResult | src/transactions/DynamoRestfulHandler.js:62-63 | The prior balance is the result of the account's last entry in append order, or 0 when the account has none. |
| Transactions.BalancedPriorIsSum | src/transactions/DynamoRestfulHandler.js:62-64 | In a balanced ledger, an account's prior balance is the sum of all its amounts. |
| Transactions.AppendKeepsBalanced | src/transactions/DynamoRestfulHandler.js:84 | Appending an entry whose result is its account's prior balance plus its amount keeps the ledger balanced. |
| Transactions.IntendedPutKeepsBalanced | src/transactions/DynamoRestfulHandler.js:62-84 | A PUT whose prior balance is read from the ledger keeps the ledger balanced, whatever its outcome, provided an accepted amount is a number. |
| Transactions.IntendedPutsYieldPrefixSums | src/transactions/DynamoRestfulHandler.js:62-105 | After any sequence of such PUTs on a balanced ledger, each with a numeric amount where it is accepted, every account's results are the prefix sums of its amounts, and its balance is the sum of them. |
| Transactions.EmptyLedgerBalanced | src/transactions/DynamoRestfulHandler.js:62 | The empty ledger is balanced, and an account without entries starts at 0. |
| Transactions.AsWrittenIgnoresPriorBalance | src/transactions/DynamoRestfulHandler.js:64 | As written, two deposits of 10 to one account both store result 10, and the ledger is not balanced. |
| Transactions.IntendedAccumulatesDeposits | src/transactions/DynamoRestfulHandler.js:62-64 | With the prior balance read from the ledger, the same deposits store 10 and then 20. |
| Transactions.TransactionHandler.HandleApiEvent | src/transactions/DynamoRestfulHandler.js:12-25 | Routing, verb by verb: PUT answers and appends as `PutOutcome` with prior balance 0; GET throws iff the store fails, and otherwise answers the account's latest entry by path `account_id` or the whole ledger; DELETE answers 404; POST and unknown methods answer 501. Only PUT writes, and the old ledger is always a prefix of the new one. |
| Transactions.TransactionHandler.HandleDelete | src/transactions/DynamoRestfulHandler.js:31-39 | DELETE always answers 404 without a body. |
| Transactions.TransactionHandler.HandlePost | src/transactions/DynamoRestfulHandler.js:46-48 | POST answers 501. |
| Transactions.TransactionHandler.HandlePut | src/transactions/DynamoRestfulHandler.js:54-106 | The response and the new ledger are those of the PUT rules with prior balance 0. Entry ids stay distinct. |
| Transactions.TransactionHandler.HandlePutIntended | src/transactions/DynamoRestfulHandler.js:62-64 | The same PUT, with the prior balance of the account read from the ledger. It keeps a balanced ledger balanced. |
| Transactions.TransactionHandler.Put | src/transactions/DynamoRestfulHandler.js:54-106 | The statement-by-statement PUT, over a given prior balance, meets the PUT rules. |
| Transactions.TransactionHandler.HandleGet | src/transactions/DynamoRestfulHandler.js:112-118 | GET with a path `account_id` answers 200 with that account's entry (or no entry); otherwise 200 with the whole ledger. A store failure throws. |
| Transactions.TransactionHandler.GetItemByAccountID | src/transactions/DynamoRestfulHandler.js:120-127 | 200 with an entry of that account when there is one, and with none only when the account has no entry. |
| Transactions.TransactionHandler.GetItems | src/transactions/DynamoRestfulHandler.js:129-137 | 200 with exactly the stored entries. |
| JsValues.UndefinedIsUnsigned | src/transactions/DynamoRestfulHandler.js:67-84 | A missing amount is neither `< 0` nor `> 0`, and adding it to the balance gives NaN. |
| JsValues.NumericStringSign | src/transactions/DynamoRestfulHandler.js:68-76 | An amount sent as a numeric string compares with 0 like the number it spells. |
| JsValues.AddToNumberMeaning | src/transactions/DynamoRestfulHandler.js:84 | `balance + amount` is integer addition for a number and concatenation after the balance's decimal form for a string. |
| JsValues.AddToNumber | src/transactions/DynamoRestfulHandler.js:84 | `balance + amount` is a number, a string or NaN. It is a string iff the amount is a string, array or object; a number iff it is null, a boolean or a number, and then the balance plus the amount's `ToNumber`; NaN iff the amount is missing or NaN. |
| JsValues.LessThanZero | src/transactions/DynamoRestfulHandler.js:68 | `amount < 0` never holds for a missing, NaN, object, null or boolean amount; for a number it holds iff the number is negative; it never holds together with `amount > 0`. |
| JsValues.GreaterThanZero | src/transactions/DynamoRestfulHandler.js:76 | `amount > 0` never holds for a missing, NaN, object or null amount; for a number it holds iff the number is positive; `true > 0` holds. |
| JsValues.IntToStringRoundTrip | src/transactions/DynamoRestfulHandler.js:68-76 | Converting an integer's decimal form back to a number gives the integer. |
| Http.Param | src/accounts/DynamoRestfulHandler.js:42 | The guard `event.pathParameters && event.pathParameters.id` admits exactly a present, non-empty parameter. |
| MediaMappings.InsertKeepsUnique | src/media-mappings/DynamoRestfulHandler.js:86-99 | Inserting, under an unused id, a mapping whose pair is not yet mapped keeps all pairs unique. |
| MediaMappings.IsMapped | src/media-mappings/DynamoRestfulHandler.js:165-172 | A pair is mapped iff some stored mapping, as listed by the table's values, has that media type and identification. |
| MediaMappings.UniqueMediaKeys | src/media-mappings/DynamoRestfulHandler.js:86-94 | When pairs are unique, no stored mapping's pair is held by any other stored mapping. |
| MediaMappings.OtherMediaTypeAccepted | src/media-mappings/DynamoRestfulHandler.js:73-115 | The conflict key is the pair: after one mapping is stored, a PUT of the same identification under another media type answers 200, and both mappings are stored with unique pairs. |
| MediaMappings.MediaMappingHandler.HandleApiEvent | src/media-mappings/DynamoRestfulHandler.js:21-34 | Routing, verb by verb: GET, PUT and DELETE answer and leave the table as their handlers do (`AnswersGet`, `AnswersPut`, `AnswersDelete`). POST and unknown methods answer 501. Only PUT and DELETE write. Pairs stay unique unless a PUT's query fails. |
| MediaMappings.MediaMappingHandler.HandleDelete | src/media-mappings/DynamoRestfulHandler.js:40-58 | No path id: 404. Store failure: 500. Otherwise the key is removed and the answer is 201. |
| MediaMappings.MediaMappingHandler.HandlePost | src/media-mappings/DynamoRestfulHandler.js:65-67 | POST answers 501. |
| MediaMappings.MediaMappingHandler.HandlePut | src/media-mappings/DynamoRestfulHandler.js:73-115 | It returns, in order: an invalid payload, 422 with the validator's errors; a missing pair attribute, a throw; an already-mapped pair, 422 with the conflict message; a failing write or a used id, 500. Otherwise the mapping is stored with its fresh id and returned with 200. Unique pairs stay unique when the query succeeds. |
| MediaMappings.MediaMappingHandler.HandlePutFailClosed | src/media-mappings/DynamoRestfulHandler.js:117-124 | The PUT with a failing pair query answered 500. It keeps pairs unique whatever the store does. |
| MediaMappings.MediaMappingHandler.Insert | src/media-mappings/DynamoRestfulHandler.js:95-114 | The put under `attribute_not_exists(id)`: 500 when the id is taken or the write fails; otherwise the item is stored under the id and returned with 200. |
| MediaMappings.MediaMappingHandler.ConflictingMappingExists | src/media-mappings/DynamoRestfulHandler.js:117-124 | True exactly when the query succeeds and some mapping has the item's pair. |
| MediaMappings.MediaMappingHandler.HandleGet | src/media-mappings/DynamoRestfulHandler.js:130-138 | A path id looks up the id. Otherwise, when both query attributes are present, the pair is looked up; 404 iff it is unmapped, else 200 with a matching stored mapping. Otherwise the answer is 200 with every mapping. |
| MediaMappings.MediaMappingHandler.GetItemByID | src/media-mappings/DynamoRestfulHandler.js:140-163 | 500 on failure, 404 for an id that is not stored, otherwise 200 with the stored mapping, whose own id is the one asked for. |
| MediaMappings.MediaMappingHandler.GetItemByMediaTypeAndIdentification | src/media-mappings/DynamoRestfulHandler.js:165-197 | 500 on failure; 404 iff no mapping has the pair; otherwise 200 with a stored mapping that has the pair. When pairs are unique, it is that one mapping. |
| MediaMappings.MediaMappingHandler.GetItems | src/media-mappings/DynamoRestfulHandler.js:199-219 | 500 on failure, otherwise 200 with every mapping. |
| MediaMappings.FailedQueryAdmitsDuplicate | src/media-mappings/DynamoRestfulHandler.js:117-124 | As written, putting a stored pair again while the query fails leaves two mappings with the same pair. |
| MediaMappings.FailClosedRefusesDuplicate | src/media-mappings/DynamoRestfulHandler.js:117-124 | The fail-closed PUT, given the same two requests, keeps one mapping and unique pairs. |
| Accounts.AccountHandler.HandleApiEvent | src/accounts/DynamoRestfulHandler.js:22-35 | Routing, verb by verb: GET, PUT, POST and DELETE answer and leave the table as their handlers do (`AnswersGet`, `AnswersPut`, `AnswersPost`, `AnswersDelete`). GET writes nothing. Unknown methods answer 501. |
| Accounts.AccountHandler.HandleDelete | src/accounts/DynamoRestfulHandler.js:41-59 | No path id: 404. Store failure: 500. Otherwise the key is removed and the answer is 201; deleting an absent account changes nothing. |
| Accounts.AccountHandler.HandlePost | src/accounts/DynamoRestfulHandler.js:65-109 | It returns, in order: no path id, 400; invalid, 422; a failing write, 500; `attribute_exists(id)` fails, 404. Otherwise the account at the id is replaced by the payload with the path id, and the answer is 201. The set of keys never changes; the table changes only on 201. |
| Accounts.AccountHandler.HandlePut | src/accounts/DynamoRestfulHandler.js:115-150 | Invalid: 422. A failing write or a used id: 500. Otherwise the payload is stored under the fresh id and returned with 200. Existing accounts are untouched. |
| Accounts.AccountHandler.HandleGet | src/accounts/DynamoRestfulHandler.js:156-186 | With or without a path id: 200 with every account, or 500 with the exception's message when a read fails. Never 404. |
| Accounts.AccountHandler.HandleGetIntended | src/accounts/DynamoRestfulHandler.js:159-168 | GET by id answers the stored account with 200, or 404 when it is missing. Without an id, it answers the scan. |
| Accounts.AccountHandler.GetItemByID | src/accounts/DynamoRestfulHandler.js:188-203 | It fails exactly on a store failure. Otherwise it gives None iff the id is not stored, or else the stored account, whose own id is the one asked for. |
| Accounts.AccountHandler.GetItems | src/accounts/DynamoRestfulHandler.js:205-218 | It fails exactly on a store failure. Otherwise it gives every account. |
| Accounts.GetByIdReturnsAllAccounts | src/accounts/DynamoRestfulHandler.js:159-162 | As written, GET with the id of one of two stored accounts answers 200 with a listing that holds both, the other account included. |
| Accounts.GetByIdIntendedReturnsOne | src/accounts/DynamoRestfulHandler.js:159-168 | The intended GET for that account answers exactly that account. |
| Products.ProductKey | src/products/DynamoRestfulHandler.js:84-87 | The key a product is stored under: its `ean`, when that is a non-empty string. |
| Products.ProductHandler.HandleApiEvent | src/products/DynamoRestfulHandler.js:17-30 | Routing, verb by verb: GET, PUT and DELETE answer and leave the table as their handlers do (`AnswersGet`, `AnswersPut`, `AnswersDelete`). POST and unknown methods answer 501. Only PUT and DELETE write. |
| Products.ProductHandler.HandleDelete | src/products/DynamoRestfulHandler.js:36-56 | No query-string ean: 404. Store failure: 500. Otherwise the ean is removed and the answer is 201. |
| Products.ProductHandler.HandlePost | src/products/DynamoRestfulHandler.js:63-65 | POST answers 501. |
| Products.ProductHandler.HandlePut | src/products/DynamoRestfulHandler.js:71-102 | Invalid: 422. A failing write or an unusable key: 500. Otherwise the product replaces whatever was stored under its ean, and the answer is 201. Other products are untouched. |
| Products.ProductHandler.HandleGet | src/products/DynamoRestfulHandler.js:108-114 | A query-string ean gives 200 with that product, or 404. Otherwise 200 with every product. A returned product is a stored one. |
| Products.ProductHandler.GetItemByEan | src/products/DynamoRestfulHandler.js:116-139 | 500 on failure, 404 for an unknown ean, otherwise 200 with the stored product, whose own ean is the one asked for. |
| Products.ProductHandler.GetItems | src/products/DynamoRestfulHandler.js:141-161 | 500 on failure, otherwise 200 with every product. |
| Authorizer.GeneratePolicy | src/authorizer/app.js:83-112 | One `execute-api:Invoke` statement on the ARN, version 2012-10-17, with the given context. The effect is Allow exactly when Allow was asked for and a principal is present; it is Deny otherwise, an unknown effect included. The principal is "unauthorized" when missing. |
| Authorizer.GenerateAllow | src/authorizer/app.js:75-77 | Allows exactly when a principal is present. |
| Authorizer.GenerateDeny | src/authorizer/app.js:79-81 | Always denies, and carries no context. |
| Authorizer.GeneratePolicyForAdministrator | src/authorizer/app.js:61-63 | Allows exactly when the token has a username. |
| Authorizer.GeneratePolicyForPointOfSale | src/authorizer/app.js:65-67 | Always denies. |
| Authorizer.GeneratePolicyForUser | src/authorizer/app.js:69-71 | Always denies. |
| Authorizer.GeneratePolicyForValidToken | src/authorizer/app.js:47-57 | The decision has one statement on the requested ARN and no context. It allows only an admin token with a username, under that username. A token without the admin group is denied. |
| Authorizer.AllowIffAdminWithUsername | src/authorizer/app.js:47-57 | The decision is Allow exactly when the groups contain admin and a username is present; otherwise it is Deny. |
| Authorizer.GroupPriority | src/authorizer/app.js:48-54 | admin takes precedence over point-of-sale, which takes precedence over user. |
| Authorizer.NonAdminGroupsDenied | src/authorizer/app.js:50-53 | Point-of-sale and user tokens are denied, under their username or "unauthorized". |
| Authorizer.NoRecognisedGroupDenied | src/authorizer/app.js:56 | A token in no known group is denied as "unauthorized", without context. |
| Authorizer.PolicyShape | src/authorizer/app.js:98-111 | Every decision is one Invoke statement on the requested ARN, at version 2012-10-17, without context. |

## Left out

- Store clients are not modelled in detail. This covers the DynamoDB clients, `marshall`/`unmarshall` and the AWS error types. Each store call is a map or sequence update, or a read; its failure is a boolean given by the caller. Which error the store would raise is not modelled. The one exception is the conditional check on account POST, which answers 404 rather than 500.
- Store calls are assumed ordered. Requests run one at a time; concurrent requests and eventual consistency are not modelled.
- Scans return only their first page. The code does not follow `LastEvaluatedKey`, so a table larger than one scan page would be listed in part. The model's scans list the whole table, which holds only for tables that fit in one page.
- JSON parsing is not modelled. Event bodies arrive already parsed as an `Item`, and the `JSON.stringify` of response bodies is left out.
- The payload validator (`payloadValidator.generatePut*Validator`) is a caller-supplied predicate; its schemas are not modelled.
- Error details are not modelled: `validate.errors` is the body `ValidationErrors`, and the raw put response is `StoreOutput`.
- `crypto.randomUUID()` is a `freshId` parameter. In the transactions model, its uniqueness is a precondition. Media mappings and accounts instead model the `attribute_not_exists(id)` guard, which answers 500 on a collision.
- JWT verification and the Lambda callback (src/authorizer/app.js:12-43) are not modelled. This covers the JWKS fetch, `jwt.verify` and network I/O; the model starts from a verified token's payload.
- `TokenPayload` always carries a group list. A token without `cognito:groups`, which would make `includes` throw, is not modelled.
- The wiring files (`src/*/app.js`) are not part of this model. Each passes its hard-coded table name as the only constructor argument. For media mappings, accounts and products that argument is `region`, so `tableName` and `payloadValidator` stay undefined; the model takes the table and the validator as given instead. Neither are `exceptions.js` beyond the message it carries, the test infrastructure, or logging.
- JavaScript numbers are integers here. Fractions, exponents, Infinity, hex literals and whitespace trimming in string-to-number conversion are not modelled. `JsValues.Json` has a separate NaN value.
- Transactions.TransactionHandler.GetItemByAccountID: the table's key schema is not in the source, and the code needs two schemas that cannot both hold. Appending entries under distinct fresh ids needs `id` to be the key, while a get keyed by `account_id` needs `account_id` to be the key, and then each PUT would overwrite the account's previous entry. The ledger is modelled with `id` as the key, and the get as the most recent entry of that account.
- Transactions.PutOutcome: a NaN `transaction_result` (a request without an amount) is modelled as a store refusal that throws out of the handler. The document client sends it as the number "NaN", which the store rejects.
- Products.ProductHandler.HandlePut: the key schema is assumed to be a non-empty string `ean`. A payload without one is refused by the store (500).
- MediaMappings.MediaMappingHandler.GetItemByMediaTypeAndIdentification: it returns some matching mapping, not necessarily the first in the index's order, because scan and query order are not modelled. Listings are for the same reason sets.
- MediaMappings.MediaMappingHandler.HandlePut: a pair attribute of the wrong type makes the real query fail (500, then fail-open). Here a mismatched pair is compared like any other value, and failure comes only through `readFails`.
- Test expectations that contradict the code are recorded as comments beside the methods and not modelled. The code is followed:
  - transactions DELETE answers 404, where the test expects 501;
  - transactions PUT answers 201, where the test expects 200;
  - media-mapping DELETE answers 201, where the test expects 204;
  - product PUT answers 201, where the test expects 200;
  - product DELETE answers 201, where the test expects 204;
  - product GET and DELETE read the query string, where the tests send path parameters;
  - account GET by id answers the whole scan, where the test expects 404 for a missing id;
  - account POST answers 201 without a body, where the test expects 200 with the changed account;
  - transactions GET reads only the path `account_id`, so a path `id` and a query-string `account_id` (with or without `latest`) get the whole scan, where the tests expect the matching entry, the account's entries or its latest entry;
  - a transactions BUY_PRODUCT with amount "-10" and a product is stored (201, result "0-10"), where the test expects 422;
  - a transactions BUY_PRODUCT without a product answers 406, where the test expects 422;
  - a transactions BUY_PRODUCT with a product and no amount throws (its result is NaN), where the tests expect 404 for an unknown ean and 200 with the product's price for a known one. The product lookup is only a TODO in the code.

## Findings

| source | as written | input that shows it | evidently intended | confidence | as-written member | corrected member |
|---|---|---|---|---|---|---|
| src/transactions/DynamoRestfulHandler.js:62-64 | `transaction_result` is always 0 + amount | two DEPOSITs of 10 to one account store 10 and 10 | balance after = the account's prior balance + amount, as in the TODO and in transactions.test.js:132-152 | medium, not executed | Transactions.AsWrittenIgnoresPriorBalance | Transactions.TransactionHandler.HandlePutIntended |
| src/accounts/DynamoRestfulHandler.js:159-162 | the by-id result is overwritten by the scan, so the 404 branch is dead | GET with the path id of one of two stored accounts answers both | the account asked for, or 404 (accounts.test.js:62-80) | high, not executed | Accounts.GetByIdReturnsAllAccounts | Accounts.AccountHandler.HandleGetIntended |
| src/media-mappings/DynamoRestfulHandler.js:117-124 | a failing pair query reads as "no conflict" and the PUT goes ahead | a stored pair PUT again while the query fails gives two mappings with that pair | the pair stays unique: refuse the PUT with 500 | medium, not executed | MediaMappings.FailedQueryAdmitsDuplicate | MediaMappings.MediaMappingHandler.HandlePutFailClosed |

The routing methods (`HandleApiEvent`) call the as-written members, as the code does. The corrected members stand beside them, with their properties proved: `Transactions.IntendedPutsYieldPrefixSums` for the ledger, and the `Unique()` postcondition of `HandlePutFailClosed` for the media mappings.
