# openpave-mailchimp core, modelled in Dafny

`index.js` is a command-line client for the Mailchimp Marketing API. Its core has four parts, and this project models each one:

- **`md5`**: a hand-written MD5 digest. The client hashes the lower-cased e-mail address with it to get a list member's subscriber id. This is module `Md5`. The message words, registers and step functions are `bv32` values. The proof target is the table-driven algorithm of RFC 1321, section 3.4. Module `Md5Vectors` works three of the appendix A.5 test vectors through that model.
- **`encodeFormData`** and `encodeURIComponent`: these build the query strings the getters send. They are modules `FormData` and `UriEncoding`, and the string helpers they need are in `JsString`.
- **`MailchimpClient`**: the constructor's token check, the base URL, `request` (header merge, default timeout, error building), and the query-building getters. It also covers `getMember`'s hashed path, `searchMembers` and `addMember`'s body. This is module `MailchimpClient`. `authenticatedFetch` and `hasToken` are host functions, so they enter as parameters: a function from the prepared request to a response, and an `Option<bool>`. In that option, `None` means `hasToken` is not defined.
- **`parseArgs`**: the argument parser. This is module `Args`. The loop is a method whose invariant ties it to a recursive reference, `Parse`. `Parse` splits the arguments into tokens and folds them into the parsed record.

The loops in the source stay loops here, each proved against a function that specifies it: `EncodeFormData`, `ParseArgs`, `ConvertToWordArray`, `WordToHex` and the block loop of `Md5`. The four MD5 rounds are straight-line code in the source, 16 step calls each, and they are straight-line register updates here. JavaScript values that matter to the control flow are a datatype (`FormData.JsValue`, `MailchimpClient.Json`), with truthiness spelled out. A thrown error is the `Failure` side of a `Result`.

## Model

| member | source | states |
|---|---|---|
| Md5.RotateLeftRotates | index.js:45-47 | OR-ing `n << s` with `n >>> (32 - s)` is a left rotation: the high bits of n come out at the bottom and the low bits move up by s |
| Md5.AddUnsigned | index.js:49-61 | the carry juggling on bits 30 and 31 computes addition modulo 2^32 for every pair of words |
| Md5.F | index.js:63 | F selects y where x is set and z where x is clear, bit by bit |
| Md5.G | index.js:64 | G selects x where z is set and y where z is clear, bit by bit |
| Md5.H | index.js:65 | H is bitwise parity: where x is set a bit is set when y and z agree, and where x is clear when they differ |
| Md5.I | index.js:66 | I is the complement of y where z is clear, and y flipped at x's set bits where z is set |
| Md5.FF | index.js:68-71 | FF is the RFC 1321 step a = b + ((a + F(b,c,d) + X[k] + T[i]) <<< s) |
| Md5.GG | index.js:72-75 | GG is the same step with G |
| Md5.HH | index.js:76-79 | HH is the same step with H |
| Md5.II | index.js:80-83 | II is the same step with I |
| Md5.WordCount | index.js:88-90 | the source's word count `((n+8) - (n+8)%64)/64 + 1) * 16` equals the padded message length in words |
| Md5.NumberOfWordsFits | index.js:88-90 | that word count is a whole number of 16-word blocks, holds the message plus the 0x80 byte and the 8 length bytes, and is the least such |
| Md5.WordIndex | index.js:95 | `(c - c % 4) / 4` is the word that holds byte c |
| Md5.ConvertToWordArray | index.js:85-106 | the array built is exactly the padded little-endian message words of RFC 1321 sections 3.1-3.2 |
| Md5.CopiedStep | index.js:94-99 | one pass of the byte loop ORs byte c into word c/4 at bit 8*(c%4) and keeps every word equal to its partial packing |
| Md5.CopiedPadded | index.js:100-102 | after the loop, ORing 0x80 after the last byte completes every word before the two length words |
| Md5.PaddedWordsPack | index.js:85-106 | every word before the last two packs four message or padding bytes, least significant first |
| Md5.PackWordBytes | index.js:97 | unpacking such a word gives back its four bytes in order |
| Md5.LengthBits | index.js:103-104 | for the int32 value v of the length, the words `v << 3` and `v >>> 29` are v shifted left by 3 as one 64-bit number, low word first |
| Md5.WordToHex | index.js:108-115 | the loop writes the four bytes of the word, least significant first, as two lowercase hex digits each |
| Md5.ShiftedMask | index.js:111 | `(lValue >>> (i * 8)) & 255` is byte i of the word, counting from the least significant |
| Md5.ZeroPaddedHex | index.js:112 | `('0' + byte.toString(16)).slice(-2)` is the two-digit hex of the byte |
| Md5.ByteHexDecodes | index.js:112 | those two digits read back as the byte |
| Md5.WordHexPrefixDigits | index.js:108-115 | every character wordToHex writes is a lowercase hex digit |
| Md5.RoundOne | index.js:127-142 | the 16 FF calls are steps 0-15 of RFC 1321 with its shifts, constants and word order |
| Md5.RoundTwo | index.js:143-158 | the 16 GG calls are steps 16-31 |
| Md5.RoundThree | index.js:159-174 | the 16 HH calls are steps 32-47 |
| Md5.RoundFour | index.js:175-190 | the 16 II calls are steps 48-63 |
| Md5.ProcessBlock | index.js:125-195 | one pass of the block loop, including the final additions, is the RFC 1321 compression of block x[k..k+16] |
| Md5.BlocksStep | index.js:125 | the loop over k in steps of 16 compresses the blocks in order |
| Md5.Md5 | index.js:43-198 | md5(str) is the RFC 1321 digest of str's character codes, written as the 16 digest bytes in lowercase hex |
| Md5.Md5HexShape | index.js:197 | the digest is 32 lowercase hex digits |
| Md5Vectors.EmptyDigest | index.js:43-198 | md5('') is d41d8cd98f00b204e9800998ecf8427e, the digest RFC 1321 appendix A.5 lists |
| Md5Vectors.AbcDigest | index.js:43-198 | md5('abc') is 900150983cd24fb0d6963f7d28e17f72, as appendix A.5 lists |
| Md5Vectors.MessageDigestDigest | index.js:43-198 | md5('message digest') is f96b697d7cb7938d525a2f31aaf161d0, as appendix A.5 lists |
| JsString.IntToStringInjective | index.js:33 | distinct integers give distinct `String(n)` texts, so encodeFormData keeps numeric values apart |
| JsString.LowerCharMerges | index.js:323 | two character codes below 256 lower to the same character exactly when they are equal or are a capital (A-Z, U+00C0-U+00DE except U+00D7) and the code 0x20 above it |
| JsString.ToLowerCaseMerges | index.js:323 | `toLowerCase` maps two byte strings to the same text exactly when they have the same length and, at every position, the same letter in either case |
| JsString.SplitJoin | index.js:36 | splitting a join of separator-free pieces gives the pieces back |
| UriEncoding.EncodeUriComponent | index.js:33 | encodeURIComponent emits only unreserved characters and % escapes |
| UriEncoding.EncodedHasNoSeparators | index.js:33 | an encoded key or value contains no & and no = |
| UriEncoding.DecodeEncode | index.js:33 | decoding encodeURIComponent's output gives the input back |
| UriEncoding.EncodeInjective | index.js:33 | distinct byte strings encode differently |
| FormData.EncodeFormData | index.js:29-37 | the loop's result is the join with & of key=value for the entries that are neither undefined, null nor '', in entry order |
| FormData.EncodedRoundTrip | index.js:29-37 | reading the query back gives exactly the sent entries, in order, as name and `String(value)`, and the query is '' exactly when nothing is sent |
| MailchimpClient.NewClient | index.js:230-239 | the constructor throws 'token not configured' exactly when hasToken exists and answers false; otherwise it keeps the datacenter and base URL |
| MailchimpClient.BaseUrlNamesDatacenter | index.js:238 | the base URL is `https://` + datacenter + `.api.mailchimp.com/3.0`, with the datacenter at positions 8 onwards |
| MailchimpClient.PrepareRequest | index.js:245-254 | the fetch names the service 'mailchimp'; the fetched URL is baseUrl + endpoint; the caller's headers override and extend a Content-Type of application/json; the timeout is the caller's when truthy, else 30000 |
| MailchimpClient.ErrorData | index.js:257-262 | the error data is the parsed body, or `{detail: text}` when the body is not JSON |
| MailchimpClient.ErrorMessage | index.js:263 | the message is detail when truthy, else title when truthy, else `HTTP <status>`, and it is always truthy |
| MailchimpClient.HandleResponse | index.js:256-270 | an ok JSON response returns the JSON; an ok non-JSON one throws a SyntaxError; a failed one throws with message, status, type and data attached (a TypeError when the body is JSON null) |
| MailchimpClient.TextBodyError | index.js:258-266 | a failed response with a text body throws with that text as detail and message, and with no type |
| MailchimpClient.Request | index.js:244-271 | request sends the prepared fetch, returns the JSON of an ok response and throws on a failed one |
| MailchimpClient.Call | index.js:230-236 | without a token the call throws before any fetch; otherwise it is the response handling of the prepared request |
| MailchimpClient.Guarded | index.js:288-290 | the params object holds only truthy options |
| MailchimpClient.GuardedSent | index.js:288-292 | encodeFormData sends every guarded option, so the query carries exactly the truthy ones |
| MailchimpClient.FalsyOptionIgnored | index.js:289-290 | a falsy option (0, '', false, undefined, null) adds nothing to the params or the query |
| MailchimpClient.GuardedQuery | index.js:292-293 | the endpoint is the bare path when no option is truthy, else path?query, and the query reads back as the truthy options |
| MailchimpClient.ListsEndpoint | index.js:287-294 | getLists' endpoint carries count and offset when truthy, under those names |
| MailchimpClient.MembersEndpoint | index.js:308-317 | getMembers' endpoint carries count, offset, status, and since as since_timestamp_opt |
| MailchimpClient.CampaignsEndpoint | index.js:361-372 | getCampaigns' endpoint carries count, offset, status, type, and since and before as since_create_time and before_create_time |
| MailchimpClient.OpenDetailsEndpoint | index.js:407-414 | getCampaignOpenDetails' endpoint carries count and offset |
| MailchimpClient.ZeroCountDropped | index.js:289-290 | a count of 0 builds the same params as no count at all |
| MailchimpClient.ZeroCountNotSent | index.js:287-294 | getLists with count 0 requests the same endpoint as getLists without a count |
| MailchimpClient.MemberPath | index.js:322-325 | the member path is `/lists/<id>/members/` followed by 32 lowercase hex digits |
| MailchimpClient.GetMemberEndpoint | index.js:322-325 | getMember's path is built from md5 of the lower-cased e-mail |
| MailchimpClient.MemberPathIgnoresCase | index.js:323 | e-mails of the same length that hold the same letter in either case at every position address the same member |
| MailchimpClient.SearchEndpoint | index.js:352-354 | searchMembers' endpoint is `/search-members?query=` followed by an escape of the search text that holds no & or = and decodes back to the text |
| MailchimpClient.SearchEndpointQuery | index.js:352-354 | searchMembers' endpoint starts with `/search-members?` and its query reads back as exactly `query` = the search text |
| MailchimpClient.SinglePairQuery | index.js:353 | one encoded key=value pair reads back as that pair |
| MailchimpClient.MemberBody | index.js:331-341 | the body has email_address as given, status defaulting to 'subscribed' when falsy, and merge_fields and tags only when truthy |
| MailchimpClient.AddMemberRequest | index.js:343-346 | addMember POSTs that body to `/lists/<id>/members` |
| MailchimpClient.AddMemberFetch | index.js:343-346 | the add request goes out with the JSON content type and the 30000 ms timeout |
| Args.SetOption | index.js:523-536 | assigning `parsed.options[key]` sets the key, except `__proto__`, which does not create an own property |
| Args.DashTests | index.js:520-532 | the character tests used are `startsWith('--')` and `startsWith('-')` |
| Args.TokenAt | index.js:519-544 | each pass of the loop consumes exactly the argument, or the argument and its value, that the branches take |
| Args.TokensConsumeAll | index.js:518-545 | the loop consumes every argument exactly once, in order |
| Args.ParseOne | index.js:519-544 | one pass of the loop applies the token at i and leaves i on the last argument consumed |
| Args.ParseArgs | index.js:510-548 | the loop's result is the fold of the tokens into the parsed record |
| Args.CommandAndPositional | index.js:538-543 | the first bare argument is the command (null when there is none) and the later bare arguments are the positionals, in order |
| Args.LastWriteWins | index.js:523-536 | an option's value is the one from its last occurrence |
| Args.UnsetKeyAbsent | index.js:523-536 | a key no argument names is not among the options |
| Args.RunAppend | index.js:518-545 | processing arguments in two halves is processing them all |
| Args.OptionTakesNext | index.js:524-536 | `--key` without = and `-key` set key to the next argument when there is one and it does not start with -, and to true otherwise |
| Args.LongOptionWithValue | index.js:520-523 | `--key=value` sets key to value, and with `split('=', 2)` anything from a second = on is dropped |

## Left out

- Console output, `printHelp`, `printTokenError`, `main` and the command dispatch are I/O around the core. The simple getters that only fill a path template (`getAccountInfo`, `getList`, `getCampaign`, `getCampaignContent`, `getCampaignReport`, `getCampaignClickDetails` and the rest) and the formatters are not modelled either.
- `authenticatedFetch` and `hasToken` are host functions. They become parameters: `fetch` and `hasToken`.
- JSON text is not modelled. `JSON.stringify` of the add-member body is represented by the body object itself. `response.json()` is an `Option<Json>` the fetch supplies, where `None` means it threw.
- Numbers are integers, not doubles. `parseInt` of user input in `main` reaches the query through `String(n)` (`FormData.ToString`), and two differences from JavaScript follow. For |n| of 10^21 or more, `String(n)` writes exponent notation such as `1e+21`, where `JsString.IntToString` writes every digit. Integers above 2^53 are rounded to a double in JavaScript and kept exact here. A NaN from `parseInt` is not represented either.
- Strings are limited to character codes below 256 wherever md5, encodeURIComponent or toLowerCase sees them. Above that, md5 reads `charCodeAt` past a byte, and toLowerCase and encodeURIComponent involve full Unicode tables.
- Md5.Md5: for messages of 2^32 bytes or more, the model follows JavaScript, where `n << 3` and `n >>> 29` see only n modulo 2^32. At those lengths the digest no longer has the 64-bit length of RFC 1321.
- Md5.LengthBits: it is stated for any 32-bit word v. No lemma proves that the int32 value of the length equals n when n < 2^32, so the claim that the two words hold 8n rests on the definition of `LengthWord`, which counts up modulo 2^32.
- Md5Vectors: three of the seven test vectors in RFC 1321 appendix A.5 are proved: "", "abc" and "message digest". The other four ("a", the alphabet, the alphanumerics and the repeated digits) are not worked through, because each block takes another 64 lemmas of register values. The general proof against section 3.4 covers them.
- UriEncoding.EncodeUriComponent: codes 0x80-0xFF are escaped as their two UTF-8 bytes, which is what encodeURIComponent does, rather than as one `%XX`.
- MailchimpClient.ErrorMessage: the message is the JSON value that `new Error` receives. Its conversion to text when it is not a string is not modelled.
- MailchimpClient.Field: JSON field lookup sees own properties only, not prototype properties such as `constructor`.
- FormData.EncodeFormData: an object's entries are a sequence in insertion order. JavaScript lists integer-like keys first; the getters never use such keys.
- MailchimpClient.MembersEndpoint: the list and campaign ids are inserted into paths unencoded, as in the source, and are arbitrary strings here.
- Args.ParseArgs: the argument vector is the parameter, in place of `process.argv.slice(2)`.
