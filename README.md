# Secure-coding demos: missile controller, CSRF session handling, microwave validator, array clear

This project models, in Dafny, the logic of four small C and C++ programs from a
secure-coding course. Each program shows an integer, memory or web-session pitfall.

- **Missile controller** (`IntegerSecurity/lab/missile-controller`). This is the main part.
  - A `MissileController` keeps an ordered list of targets. Each target has a signed 32-bit id, an unsigned 32-bit distance and a signed 32-bit priority.
  - It also keeps a warhead buffer and that buffer's size as an `unsigned int`.
  - `addTarget` validates a target and appends it. The priority test can never be true. The distance test relies on unsigned underflow, and in effect admits exactly 1000..6000.
  - `allocateWarheadBuffer` sizes the buffer as `count * 8` in wrapping 32-bit arithmetic. It then allocates that many bytes and zero-fills them.
  - `engageTargets`/`processTargets` prints, for each target, its id, the priority reinterpreted as unsigned (the status code), and the final distance. The final distance is the distance narrowed to 16 bits plus 65000, with 16-bit wrap-around. The model returns one record per target; besides the printed values, each record keeps the narrowed distance, an intermediate value that the program computes but does not print.
  - The driver program adds three targets, allocates an oversized buffer and then engages.
- **CSRF demo server** (`CSRF/csrf_demo/main.cpp`).
  - `get_session_id` parses the `Cookie` header naively.
  - `generate_token` builds a token over 62 letters and digits.
  - The global session table is changed by the login, checked and unchecked email-change, and logout handlers.
- **Microwave validator** (`DynamicMemoryManagement/InitializationErrors/microware.cpp`). `startMicrowave` decides whether a timer configuration aborts, is rejected or starts, and in which cooking mode.
- **Array clear** (`Strings/Array/Array.c`). The array parameter of `clear` decays to a pointer. So `clear` zeroes only `sizeof(int*) / sizeof(int)` elements: 2 on LP64, out of the caller's 12.

Fixed-width integers are bounded subsets of `int` (`uint16`, `uint32`, `int32`). Every implicit C++ conversion is written out as a reduction modulo 2^16 or 2^32.

The controller and the session table are classes whose methods update their fields. The HTTP handlers become methods of a `SessionStore` class that owns the session map. The functions in `Utils.cpp`, `get_session_id` and `startMicrowave` are pure functions. Every printed value becomes a returned record or outcome.

Two behaviours of the code are kept as written:
- `allocateWarheadBuffer` does not release a previously allocated buffer before replacing it. The model adds no release step.
- `engageTargets` does not skip negative priorities, although `MissileController.h:10` says a negative priority means no engagement.

Files:
- `missile_utils.dfy`: module `MissileUtils`, for `Utils.cpp`.
- `missile_controller.dfy`: module `MissileControl`, for `MissileController.h` and `MissileController.cpp`.
- `missile_main.dfy`: module `MissileDemo`, for the driver `main.cpp`.
- `wrappers.dfy`: `Option`.
- `csrf_cookies.dfy`, `csrf_tokens.dfy`, `csrf_sessions.dfy`: modules `CsrfCookies`, `CsrfTokens` and `CsrfSessions`.
- `microwave.dfy`: module `Microwave`.
- `array_clear.dfy`: module `ArrayClear`.

## Model

| member | source | states |
|---|---|---|
| `MissileUtils.CalculateWarheadMemory` | IntegerSecurity/lab/missile-controller/src/Utils.cpp:5-8 | The size is `count*8` reduced modulo 2^32 and always a multiple of 8. It equals `count*8` exactly when `count <= 536870911`; above that it is strictly smaller than the bytes needed. |
| `MissileUtils.PriorityToCode` | IntegerSecurity/lab/missile-controller/src/Utils.cpp:10-13 | The code is `p` for `p >= 0` and `p + 2^32` for `p < 0`. Reading the code back as signed 32-bit gives `p`. |
| `MissileUtils.AdjustDistance` | IntegerSecurity/lab/missile-controller/src/Utils.cpp:15-18 | The result is the low 16 bits of the distance: `distance == hi * 65536 + result`. It is the identity below 65536. |
| `MissileUtils.PriorityToCodeInjective` | IntegerSecurity/lab/missile-controller/src/Utils.cpp:12 | Two priorities with the same status code are equal. |
| `MissileUtils.PriorityToCodeSurjective` | IntegerSecurity/lab/missile-controller/src/Utils.cpp:12 | Every 32-bit code is the code of the priority it reads back as, so the cast is a bijection. |
| `MissileUtils.WarheadMemoryWrapsToZero` | IntegerSecurity/lab/missile-controller/src/Utils.cpp:7 | A count of 536870912 gives size 0, and a count of 10 gives 80. |
| `MissileUtils.PriorityAndDistanceExamples` | IntegerSecurity/lab/missile-controller/src/Utils.cpp:10-18 | Priority -5 gives code 4294967291, and distance 70000 narrows to 4464. |
| `MissileControl.WrapAroundDistance` | IntegerSecurity/lab/missile-controller/src/MissileController.cpp:57 | `dist + 65000` stored in an `unsigned short` is `dist + 65000` below 536 and `dist - 536` from 536 on. |
| `MissileControl.ReportFor` | IntegerSecurity/lab/missile-controller/src/MissileController.cpp:48-58 | A target's record keeps its id. Its status code reads back as the priority, and is at least 2^31 for a negative priority. Distances below 65536 are kept, and the final distance is the truncated one plus 65000, modulo 2^16. |
| `MissileControl.MissileController.constructor` | IntegerSecurity/lab/missile-controller/src/MissileController.cpp:7-8 | A new controller has no targets, no buffer and buffer size 0. |
| `MissileControl.MissileController.AddTarget` | IntegerSecurity/lab/missile-controller/src/MissileController.cpp:16-32 | Returns true iff `1000 <= distance <= 6000`, whatever the priority. On success exactly `Target{id, distance, priority}` is appended; on failure the list is unchanged. The buffer and its size never change. |
| `MissileControl.MissileController.AllocateWarheadBuffer` | IntegerSecurity/lab/missile-controller/src/MissileController.cpp:34-41 | The recorded size becomes `CalculateWarheadMemory(count)`. The new buffer is freshly allocated, has exactly that length and holds only zeros. The targets are unchanged. |
| `MissileControl.MissileController.EngageTargets` | IntegerSecurity/lab/missile-controller/src/MissileController.cpp:43-45 | Yields one record per stored target, in insertion order, negative priorities included. It changes nothing. |
| `MissileControl.MissileController.ProcessTargets` | IntegerSecurity/lab/missile-controller/src/MissileController.cpp:47-59 | The loop yields exactly `ReportFor(targets[i])` at position `i`, for every stored target. |
| `MissileControl.AcceptedTargetReport` | IntegerSecurity/lab/missile-controller/src/MissileController.cpp:53-57 | For a target `addTarget` accepted, narrowing is exact and the final distance is the distance minus 536. |
| `MissileControl.FarTargetReport` | IntegerSecurity/lab/missile-controller/src/MissileController.cpp:53-57 | Distance 70000 truncates to 4464, and its final distance is 3928. |
| `MissileDemo.RunDriver` | IntegerSecurity/lab/missile-controller/src/main.cpp:5-26 | The three registrations return false, true, true. The buffer size after allocating `UINT_MAX/2` warheads is 4294967288. Engagement yields target 2 with code 4294967291 and final distance 964, then target 3 with code 7 and final distance 2464. |
| `MissileDemo.EngageTwice` | IntegerSecurity/lab/missile-controller/src/MissileController.cpp:43-48 | Engaging twice after registering `{3, 3000, 7}` gives the same single record both times. |
| `MissileDemo.EngageEmpty` | IntegerSecurity/lab/missile-controller/src/MissileController.cpp:7-8 | A fresh controller engages to no records and reports buffer size 0. |
| `CsrfCookies.FindFrom` | CSRF/csrf_demo/main.cpp:37-39 | The result is the first occurrence of the pattern at or after `from`. None means there is no occurrence there. |
| `CsrfCookies.GetSessionId` | CSRF/csrf_demo/main.cpp:32-41 | The result never contains `;`. It is "" without a Cookie header, and "" when `SESSION_ID=` does not occur in it. |
| `CsrfCookies.PrefixHasNoSemicolon` | CSRF/csrf_demo/main.cpp:39-40 | The `;` search that starts at the prefix finds nothing inside the prefix. So the substring count is never negative, and the extracted text holds no `;`. |
| `CsrfCookies.UpToSemicolonIsPrefix` | CSRF/csrf_demo/main.cpp:39-40 | Cutting at the first `;` (or at the end) gives exactly the prefix before it. |
| `CsrfCookies.SessionIdAfterFirstPrefix` | CSRF/csrf_demo/main.cpp:36-40 | When the first `SESSION_ID=` is at `i`, the id is the text after it up to the next `;`, or to the end because `substr` clamps. |
| `CsrfCookies.SuffixedCookieNameMatches` | CSRF/csrf_demo/main.cpp:37 | The raw substring search makes `XSESSION_ID=v` yield `v`. |
| `CsrfCookies.SessionIdBeforeOtherCookies` | CSRF/csrf_demo/main.cpp:39-40 | `SESSION_ID=<v>;<rest>` with no `;` in `v` yields exactly `v`. |
| `CsrfTokens.DrawsPickAlphanumerics` | CSRF/csrf_demo/main.cpp:20-24 | The charset has 62 characters, and the largest draw, `sizeof(charset) - 2`, is its last index (the NUL is never drawn). Every charset character is a letter or a digit. |
| `CsrfTokens.CharsetCoversAlphanumerics` | CSRF/csrf_demo/main.cpp:20-21 | The charset is strictly increasing and contains every ASCII letter and digit. |
| `CsrfTokens.GenerateToken` | CSRF/csrf_demo/main.cpp:19-29 | The token has exactly `length` characters (none when `length < 0`). Character `k` is the charset entry of draw `k`, and every character is alphanumeric. |
| `CsrfSessions.SessionStore.constructor` | CSRF/csrf_demo/main.cpp:16 | The session table starts empty. |
| `CsrfSessions.SessionStore.Login` | CSRF/csrf_demo/main.cpp:60-75 | Only `admin`/`admin` creates a session. It is stored under a 32-character generated id, with username `admin`, email `admin@example.com` and a 16-character generated token, and the response redirects to `/profile` with the `SESSION_ID` cookie. Other sessions are untouched. Any other login leaves the table unchanged. |
| `CsrfSessions.SessionStore.Profile` | CSRF/csrf_demo/main.cpp:78-98 | Without a known session the response redirects to `/`. Otherwise the page shows the session's user and email and embeds its CSRF token. |
| `CsrfSessions.SessionStore.ChangeEmailChecked` | CSRF/csrf_demo/main.cpp:101-120 | An unknown session redirects to `/` and a wrong token gives 403; in both cases the table is unchanged. Only a matching token replaces that session's email, and nothing else changes. |
| `CsrfSessions.SessionStore.ChangeEmail` | CSRF/csrf_demo/main.cpp:124-138 | Any request with a known session id replaces that session's email, with no token comparison. An unknown session redirects and changes nothing. |
| `CsrfSessions.SessionStore.Logout` | CSRF/csrf_demo/main.cpp:141-146 | The session named by the cookie is removed from the table, and the cookie is reset. |
| `CsrfSessions.NoCookieNoSession` | CSRF/csrf_demo/main.cpp:102-106 | A request without a Cookie header, or without `SESSION_ID=` in it, never finds a session that login created. |
| `CsrfSessions.ForgedRequest` | CSRF/csrf_demo/main.cpp:101-138 | After an admin login, a cross-site request carrying the cookie but no token is refused (403) by `/change_email2`. The same request is accepted by `/change_email`, which sets the attacker's email. |
| `Microwave.StartMicrowave` | DynamicMemoryManagement/InitializationErrors/microware.cpp:18-51 | It aborts iff `safetyOverride` is set. The settings are invalid iff there is no override and either the time is `<= 0` or the power is outside 1..10. Otherwise it starts, with that time and power. It cooks in auto mode iff the mode is exactly `"auto"` and the weight is positive; a non-positive weight only warns. Any other mode is manual. |
| `Microwave.ModeComparedExactly` | DynamicMemoryManagement/InitializationErrors/microware.cpp:41-47 | A valid configuration whose mode is `"Auto"` cooks manually. |
| `Microwave.GoodConfigRun` | DynamicMemoryManagement/InitializationErrors/microware.cpp:67-74 | `goodConfig` starts for 90 s at power 5, auto-cooking 500 grams. |
| `ArrayClear.Clear` | Strings/Array/Array.c:3-11 | Exactly the first `sizeof(int*)/sizeof(int)` elements become 0, whatever the array's length. Every later element keeps its value. |
| `ArrayClear.ClearDemo` | Strings/Array/Array.c:20-37 | `dis` is filled with 1..12. After `clear` on LP64 it is `0, 0, 3, 4, …, 12`. |

## Left out

- Console output (`std::cout`, `std::cerr`, `printf`): printed values are returned as records or outcomes instead.
- Heap behaviour: the destructor, `delete[]`, and `new char[...]` failing with `std::bad_alloc` (a 4294967288-byte request may well fail) are not modelled. The buffer is a freshly allocated, zero-filled array of the computed length.
- The leak in `allocateWarheadBuffer`: the model can only show that the old buffer is dropped without any release step.
- `include/Utils.h` only declares the functions of `src/Utils.cpp`.
- The buffer's `char` elements are modelled as bytes (`bv8`); C's signedness of `char` plays no part, since only 0 is written.
- HTTP server wiring of the CSRF demo:
  - Routing, HTML bodies and status codes other than 403 are not modelled.
  - The `Cookie` header lookup in httplib's case-insensitive header multimap becomes an optional header value.
  - `get_param_value` becomes a plain string parameter; an absent form field reads as "".
- `std::random_device` and `mt19937` in `generate_token`: the uniform distribution's results are a sequence of draws in 0..61, given as input.
- Concurrency of the HTTP server's handlers on the shared session map is not modelled: handlers run one at a time.
- `CsrfCookies.GetSessionId`: requires the header to be shorter than `std::string::npos`, which a `std::string` can never reach.
- The uninitialised `badConfig` of `microware.cpp`: indeterminate values cannot be represented, so only fully initialised configurations are modelled.
- `sizeof(int*)` and `sizeof(int)` in `Array.c` are parameters of `Clear`. LP64 values (8 and 4) are used for `main`. A count larger than the array, which would write out of bounds, is excluded by `Clear`'s precondition.
- `print_array` in `Array.c` only prints.
- The SQL-injection, command-injection, XSS, format-string, buffer-overflow and memory-layout programs of the repository are not part of this model: their behaviour lies in SQLite, `system()`, `sprintf` with attacker-controlled formats, or undefined behaviour.
