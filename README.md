# API URL helper of the food-ordering frontend, in Dafny

This project models `getApiUrl`, the frontend's utility function for getting an
API URL. It takes the build-time setting `VITE_API_URL` and an endpoint
path and does three things:

- the base (an unset setting reads as the empty string) loses one trailing `/`;
- the endpoint gains a leading `/` when it lacks one;
- the result is the cleaned base followed by the cleaned endpoint, or only the
  cleaned endpoint when the cleaned base is empty.

The setting is a parameter of type `Option<string>` (`None` for unset). Strings
are sequences of characters, and the join is plain concatenation. No URL is
parsed or validated.

Everything is in `ApiUrl.dfy`. Module `Wrappers` holds the `Option` datatype.
Module `Api` holds the functions that mirror the three `const` bindings and the
final conditional, plus the lemmas about them. `TrimLeadingSlash` is a
reference definition. The lemma `GetApiUrlIsSlashJoin` proves that every URL
equals "cleaned base + `/` + endpoint without its leading slash", whichever
branch of the final conditional is taken.

## Model

| member | source | states |
|---|---|---|
| Api.BaseUrl | frontend/src/utils/api.js:4 | the base is empty exactly when the setting is unset or empty; otherwise it is the setting's value |
| Api.CleanBase | frontend/src/utils/api.js:6 | a base ending in `/` is the result plus that one `/`; any other base is unchanged |
| Api.CleanEndpoint | frontend/src/utils/api.js:8 | the result always starts with `/`; it is the endpoint itself when that starts with `/`, otherwise `/` followed by the endpoint |
| Api.GetApiUrl | frontend/src/utils/api.js:3-12 | the URL starts with the cleaned base and has `/` right after it; it ends with the endpoint exactly as given; its length is the cleaned base's plus the endpoint's, plus one only when a slash was inserted |
| Api.MissingOrEmptyBase | frontend/src/utils/api.js:4-11 | an unset and an empty base give the same URL, which is the cleaned endpoint alone and starts with `/` |
| Api.SlashOnlyBase | frontend/src/utils/api.js:6-11 | a base of exactly `/` cleans to the empty string, so the URL is the cleaned endpoint alone |
| Api.CleanEndpointIdempotent | frontend/src/utils/api.js:8 | cleaning an endpoint twice gives the same result as cleaning it once |
| Api.CleanBaseStripsOneSlash | frontend/src/utils/api.js:6 | only one trailing slash is removed: a base ending in `//` is one character shorter and still ends in `/` once cleaned |
| Api.EmptyEndpoint | frontend/src/utils/api.js:8-11 | the empty endpoint gives the cleaned base followed by `/`, so the URL is never empty |
| Api.GetApiUrlIsSlashJoin | frontend/src/utils/api.js:6-11 | for every setting and endpoint, the URL is the cleaned base, one `/`, and the endpoint without its leading `/`; both branches of the final conditional agree with this one formula |
| Api.SameUrlIffSameEndpoint | frontend/src/utils/api.js:8-11 | for a fixed setting, two endpoints give the same URL if and only if their cleaned forms are equal, that is, if and only if they are equal once one leading `/` is dropped from each, so `x` and `/x` are the only collisions |
| Api.DoubleSlashInConcat | frontend/src/utils/api.js:11 | a concatenation holds `//` if and only if one of its parts does, or the first part ends in `/` and the second starts with `/` |
| Api.JoinAddsNoDoubleSlash | frontend/src/utils/api.js:6-11 | when the base does not end in `//`, the URL holds `//` if and only if the base or the endpoint already did, so stripping the trailing slash keeps the join clean |
| Api.DoubleSlashBaseLeavesDoubleSlash | frontend/src/utils/api.js:6-11 | when the base ends in `//`, the URL has `//` right at the join, because only one of the base's slashes is stripped |
| Api.DoubleSlashExample | frontend/src/utils/api.js:6-11 | the base `x//` cleans to `x/`, and with the endpoint `api` gives `x//api` |

## Left out

- Reading `import.meta.env.VITE_API_URL`: this is build-time environment access, so the value is the `Option<string>` parameter of `GetApiUrl`.
- JavaScript strings are UTF-16 code-unit sequences. The model uses Dafny `char` sequences, and a Dafny `char` is a Unicode scalar value. For well-formed strings the difference changes no result, because `endsWith`, `startsWith` and `slice` here look only at a `/` at either end. A JavaScript string holding a lone surrogate has no counterpart in the model.
- `endpoint` is typed as a string. In JavaScript, `endpoint.startsWith` (frontend/src/utils/api.js:8) throws a TypeError when the endpoint is `undefined`, `null` or a number. The model does not represent that error.
- URL validity: the helper does not parse URLs or check schemes, and neither does the model.
- `frontend/src/Components/PrivateRoutes.jsx`: a React component that chooses between rendering its element and redirecting to the admin login, based on a browser-storage lookup. It has no logic of its own apart from React Router and browser storage.
- `selenium_tests/test_irtazafoods.py`: browser-driven acceptance tests (driver setup, timed waits, DOM queries, soft fallbacks). It is all I/O against a live browser and server, with no data structure or algorithm to state.
