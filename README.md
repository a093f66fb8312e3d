# Storefront authentication and list-sorting rules

A model of the client-side rules of a React storefront:

- the **login page**: a second-factor challenge (`auth = {enable, type, code}`) that the server escalates with the message `Error.InvalidTOTPAndCode`, the login body that carries the challenge code under `code` (e-mail OTP) or `totpCode` (authenticator), the send-OTP request, and the submit handlers that either commit the session and pick the landing page by role, or write the server's field errors into the form;
- the **registration page**: a two-step wizard that refuses the move to step 1 while no e-mail has been entered, and its submit handlers;
- the **header bar**: logout (which signs the session out and drops the cached `purchases` queries, on server success only), the role-dependent dropdown menu, and the switch between the user menu and the register/login links;
- the **sort bar** of the product list: the map-to-map rewrites of the query configuration made by a sort or a price order, the path the list is reopened at, and which control shows as selected.

Files, one module each:

- `forms.dfy` (`Forms`): the server's `(path, message)` errors, the outcome of a request (`Ok`, a 422 `Unprocessable` whose message list may be missing, `OtherError`), the per-field error map. `ApplyErrors` is the effect of calling `setError` once per error, in order. `FindByMessage` is the `find` over the list.
- `session.dfy` (`Session`): the shared session store. It holds the app context's `isAuthenticated` and `profile` and the keys of the query client's cache.
- `login.dfy` (`Login`), `register.dfy` (`Register`), `nav_header.dfy` (`NavHeader`): one class per page or component. Its fields are the component's state, and its methods are the event handlers. The pure parts are functions with lemmas beside them.
- `sort_product_list.dfy` (`SortProductList`): pure functions on maps, with lemmas.

Network responses are inputs to the handler methods. A handler takes the request's outcome and returns the body it sent and the route it navigated to, if any. Two more values are inputs because they come from code outside the model: the refresh token read from local storage, and whether logout succeeded.

Where the code and a reading of the intended design differ, the model follows the code:

- Changing the code type does not clear the typed code (`Login.tsx:134`).
- A successful login does not reset the challenge (`Login.tsx:75-83`).
- The escalation marker is also written as an ordinary field error (`Login.tsx:92-97`).
- Logout changes the session only when the server call succeeds (`NavHeader.tsx:20-25`). A failed call leaves it unchanged.
- Login sets `isAuthenticated` directly, not from a stored token.
- The login body can hold both `code` and `totpCode` only if the form data already held one of them. The form registers only `email` and `password`, so `PayloadCarriesOneCode` states the one-field rule under that condition.

## Model

| member | source | states |
|---|---|---|
| Forms.ApplyErrorsLast | src/pages/Login/Login.tsx:92-97 | after a batch of server errors, a path mentioned in the batch holds the message of its LAST error in list order |
| Forms.ApplyErrorsUntouched | src/pages/Register/Register.tsx:53-60 | a path that no error of the batch names keeps its previous message, or stays absent |
| Forms.ApplyErrorsKeys | src/pages/Login/Login.tsx:92-97 | the error map gains exactly the paths of the batch and loses none |
| Forms.FindByMessage | src/pages/Login/Login.tsx:89 | the search finds an error iff some error carries exactly that message, and returns the first one that does |
| Session.Store.RemoveQueries | src/components/NavHeader/NavHeader.tsx:24 | the cache drops every query whose key starts with the filter and keeps the rest; the other session fields are unchanged |
| Login.CodeKey | src/pages/Login/Login.tsx:25-27 | the code goes under `code` iff the type is `"otp"`, and under `totpCode` for every other type, `"2fa"` included |
| Login.Payload | src/pages/Login/Login.tsx:50-57 | with the challenge off, the body is the form data exactly; with it on, the body is the form data plus `CodeKey(type)` set to the code, and every other field is unchanged |
| Login.PayloadCarriesOneCode | src/pages/Login/Login.tsx:36-55 | for form data without code fields, the body has a code field iff the challenge is on, never both fields, and `code` iff the type is OTP |
| Login.Escalate | src/pages/Login/Login.tsx:88-91 | a 422 turns the challenge on iff some error's message is exactly `Error.InvalidTOTPAndCode`; type and code are kept; without the marker the challenge is unchanged |
| Login.EscalatedResubmitCarriesCode | src/pages/Login/Login.tsx:50-57 | after an escalation and a typed code, the next body carries that code under the field of the selected type, and the form data is unchanged |
| Login.WrongPasswordScenario | src/pages/Login/Login.tsx:85-100 | a lone `password` error is written under `password` and leaves the challenge as it was |
| Login.MissingCodeScenario | src/pages/Login/Login.tsx:85-100 | a lone marker error under `code` enables the challenge and is also written under `code` |
| Login.LandingRoute | src/pages/Login/Login.tsx:78-82 | the landing route is `/` iff `roleId == 2`; otherwise it is `/manage/profile` |
| Login.LoginPage.constructor | src/pages/Login/Login.tsx:48-49 | the challenge starts disabled, with type `"otp"` and an empty code; the remembered e-mail is empty |
| Login.LoginPage.SelectCodeType | src/pages/Login/Login.tsx:133-135 | changing the type keeps the code and the enabled flag |
| Login.LoginPage.EnterCode | src/pages/Login/Login.tsx:150 | editing the code keeps the type and the enabled flag |
| Login.LoginPage.SendOtp | src/pages/Login/Login.tsx:68-70 | offered only while an OTP challenge is shown (lines 127, 154); the OTP request uses the e-mail recorded at the last submit, with purpose LOGIN |
| Login.LoginPage.SetServerErrors | src/pages/Login/Login.tsx:92-97 | the loop leaves the error map equal to `ApplyErrors` of the old map and the whole list |
| Login.LoginPage.Submit | src/pages/Login/Login.tsx:71-102 | validation first empties the error map; records the submitted e-mail; sends `Payload(auth, data)`. On success: signs in with the returned user, routes by role, keeps the challenge. On a 422 with a list: escalates, and the error map holds exactly that list's errors; the session is left alone. Otherwise the error map is empty and nothing else changes |
| Register.NextStep | src/pages/Register/Register.tsx:22-28 | asking for step 1 with an empty e-mail keeps the current step; every other request, step 1 with an e-mail included, moves to the requested step |
| Register.NextStepKeepsGate | src/pages/Register/Register.tsx:22-28 | no step-bar request reaches step 1 without an e-mail, once the gate holds |
| Register.NextStepBoundary | src/pages/Register/Register.tsx:23 | the empty e-mail is refused; a one-character e-mail is let through |
| Register.RegisterPage.constructor | src/pages/Register/Register.tsx:19-20 | the wizard starts at step 0 with an empty e-mail and no errors |
| Register.RegisterPage.ShownStep | src/pages/Register/Register.tsx:86-97 | the e-mail step and the registration fields are never shown together; the fields are shown only with an e-mail |
| Register.RegisterPage.OnChange | src/pages/Register/Register.tsx:22-28 | warns iff asked for step 1 with an empty e-mail; the step becomes `NextStep`; the gate invariant is preserved |
| Register.RegisterPage.SetEmail | src/pages/Register/Register.tsx:86-94 | called only at step 0, where the e-mail step is mounted; the e-mail is replaced and the gate invariant holds |
| Register.RegisterPage.SetServerErrors | src/pages/Register/Register.tsx:53-60 | the loop leaves the error map equal to `ApplyErrors` of the old map and the whole list |
| Register.RegisterPage.Submit | src/pages/Register/Register.tsx:43-64 | validation first empties the error map; sends the form data unchanged; on success navigates to `/login`; on a 422 with a list the error map holds exactly that list's errors; otherwise it stays empty; never touches the session |
| NavHeader.BuildMenu | src/components/NavHeader/NavHeader.tsx:32-68 | the menu keys are `[1,2,4]` for a customer (`roleId == 2`), otherwise `[1,2,3,4]`, a missing profile included; profile and orders come first, and logout comes last and only there |
| NavHeader.LoggedOut | src/components/NavHeader/NavHeader.tsx:20-25 | after logout: not authenticated, no profile, and no cached query under `["purchases"]`; the other queries are kept |
| NavHeader.LoggedOutIdempotent | src/components/NavHeader/NavHeader.tsx:20-24 | logging out twice ends in the same state as logging out once |
| NavHeader.LoggedOutOfSignedOut | src/components/NavHeader/NavHeader.tsx:20-24 | logout of a signed-out session with no purchases cached changes nothing |
| NavHeader.View | src/components/NavHeader/NavHeader.tsx:97-120 | the user menu, greeting the profile's e-mail, is shown iff authenticated; the register/login links are shown iff not |
| NavHeader.LoggedOutShowsGuestLinks | src/components/NavHeader/NavHeader.tsx:20-22 | after logout the header shows the register/login links |
| NavHeader.Header.HandleLogout | src/components/NavHeader/NavHeader.tsx:18-30 | sends `{refreshToken}` with the stored token; a successful response leaves the session equal to `LoggedOut` of the old one, and a failed one leaves it unchanged |
| SortProductList.ListPath | src/pages/ProductList/SortProductList/SortProductList.tsx:38 | the path is `/categories/<id>` when the parent id is present and non-empty, else `/search` |
| SortProductList.HandleSort | src/pages/ProductList/SortProductList/SortProductList.tsx:20-41 | `sortBy` is replaced and `orderBy` removed; `categories` is removed too when there is no parent category; every other key is kept |
| SortProductList.HandlePriceOrder | src/pages/ProductList/SortProductList/SortProductList.tsx:42-51 | `sortBy` becomes `"price"` and `orderBy` the chosen order; nothing is removed, and every other key is kept |
| SortProductList.PriceSelectValue | src/pages/ProductList/SortProductList/SortProductList.tsx:75 | the select shows `orderBy` only when sorting by price, and nothing otherwise |
| SortProductList.HandleSortIdempotent | src/pages/ProductList/SortProductList/SortProductList.tsx:20-36 | sorting twice by the same value gives the same navigation as sorting once |
| SortProductList.HandleSortSelects | src/pages/ProductList/SortProductList/SortProductList.tsx:57-75 | after a sort, exactly the chosen button is highlighted and the price select is empty |
| SortProductList.HandlePriceOrderSelects | src/pages/ProductList/SortProductList/SortProductList.tsx:42-75 | after a price order, the select shows that order and only the price sort counts as selected |
| SortProductList.HandlePriceOrderOverwrites | src/pages/ProductList/SortProductList/SortProductList.tsx:42-50 | a price order does not depend on the previous `sortBy` and `orderBy` |

## Left out

- Markup, styling, toasts and antd messages, and the i18n label lookups: they are presentational. The customer's separately worded logout label is one of them.
- The query library's in-flight handling and the disabling of buttons while a request runs: it lives in a library that is not part of this model. Each submit is modelled as one atomic step, from the request to its response.
- Login.LoginPage.Submit: the error handler's `auth` is the one captured when the form was submitted. Edits made to the challenge while the request is in flight would be overwritten. This is not modelled, because submit and response form one step.
- The Google login (`Login.tsx:30-34`): it is an HTTP call followed by a full-page redirect.
- `src/apis/product.api.ts`, `src/apis/category.api.ts`, `src/i18n/i18n.ts` and `changeLanguage` (`NavHeader.tsx:69-72`): they are thin HTTP wrappers and library configuration.
- Token storage, `authApi`, the app context, the form schemas and the e-mail/OTP step component are not part of this model. The refresh token and the request outcomes are parameters. Form data is taken as already validated.
- Register.RegisterPage.SetEmail: the e-mail step component also receives `setCurrent` (`Register.tsx:91`), so it can change the step without the gate. What it does with it is not part of this model. The gate invariant is proved only for changes made through `OnChange` and `SetEmail`.
- Search-parameter serialisation and `navigate`: the result is modelled as the path and map handed to them.
- SortProductList.HandleSortSelects, SortProductList.HandlePriceOrderSelects: they read the selected controls off the map handed to `navigate`. This assumes the next render's `queryConfig` is exactly that map; the hook that builds `queryConfig` from the URL is not part of this model.
- Login.LoginPage.Submit, Register.RegisterPage.Submit: the form-validation step is modelled only by its effect on a valid submit, which is to empty the error map. Client-side validation messages are not modelled.
