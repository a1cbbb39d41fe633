# Mission Exploit CTF: a Dafny model

The repository is a small capture-the-flag game. A browser page (`script.js`)
shows a fake Unix terminal. The player lists and reads four files, asks for
hints, hashes phrases with an MD5 written in JavaScript, and submits an answer.
An Express server (`server.js`) XORs the trimmed answer with the key 77, hashes
it with Node's MD5, and releases the flag when the digest is the target digest.
Two Node tools do the same XOR-then-MD5 computation offline:
`analyze-hashes.js` tries five known phrases against five intercepted digests,
and `generate-hash.js` builds a challenge record.

This project models that core in Dafny and proves what it promises.

- `js_text.dfy` (module `JsText`): JavaScript strings as sequences of UTF-16
  code units, with `trim`, `split`, `join`, `toLowerCase`, `includes`,
  `startsWith` and `padStart`. These are the built-ins the core relies on.
- `xor_cipher.dfy` (module `XorCipher`): bitwise XOR on integers, and
  `xorText`, which is written out identically in the three Node files.
- `server.dfy` (module `Server`): the configuration, and the decision of the
  `POST /submit` handler. Node's MD5 is a function parameter.
- `analyze_hashes.dfy` (module `AnalyzeHashes`) and `generate_hash.dfy`
  (module `GenerateHash`): the two offline tools.
- `rfc1321.dfy` (module `Rfc1321`): MD5 as section 3 of RFC 1321 defines it.
  It is the reference against which the page's MD5 is proved.
- `script_md5.dfy` (module `ScriptMd5`): the MD5 of `script.js`. `md5cycle`,
  `md51`, `md5blk`, `rhex` and `hex` update arrays in place, as they do in the
  source. Each is proved against RFC 1321.
- `text_transforms.dfy` (module `TextTransforms`): `rot13`, `reverseString`
  and `xorEncode`.
- `file_system.dfy` (module `FileSystem`): the file tree, `getCurrentDirectory`,
  `searchFileSystem` and `searchInFiles`.
- `terminal.dfy` (module `ScriptTerminal`): the `Terminal` class.
  - `Session` is the value of the fields the handlers change. Each handler is a
    function on it.
  - The class `Terminal` keeps the same fields. Its methods update them in
    place, and each method is proved to leave the state its function describes.
  - What `addOutput` appends to the page is a `Message`. The submissions that
    `submit` sends to the server are collected in `requests`.

## Model

| member | source | states |
|---|---|---|
| XorCipher.Xor | server.js:21 | `^` on non-negative integers (a code unit and the key), one binary digit at a time from the lowest; its laws are stated by XorTwice, XorCommutes, XorAssociates and XorBelow |
| XorCipher.XorText | server.js:19-23 | the result has the text's length, and code unit i is code unit i of the text XORed with the key |
| XorCipher.XorUnit | server.js:21 | XORing the result with the key again gives back the code unit |
| XorCipher.XorTextInvolutive | analyze-hashes.js:11-15 | XORing twice with the same key gives back the text |
| XorCipher.XorTextInjective | generate-hash.js:10-14 | two texts with the same XOR under one key are equal |
| XorCipher.XorTwice | server.js:21 | (a ^ b) ^ b == a on non-negative integers |
| XorCipher.XorBelow | server.js:21 | the XOR of two numbers below 2^n is below 2^n |
| XorCipher.XorCommutes | script.js:124 | XOR commutes |
| XorCipher.XorAssociates | script.js:124 | XOR associates |
| Server.EnvOr | server.js:7-8 | `process.env.NAME \|\| fallback` gives the fallback or the variable's own non-empty value, and is never empty when the fallback is not |
| Server.LoadConfig | server.js:7-8 | neither the flag nor the target digest of the configuration is ever empty |
| Server.Submit | server.js:36-81 | the handler answers with status 200 or 500; 500 goes with the error message and only to a non-empty string plaintext; the flag is sent with a success and never otherwise |
| Server.Verdict | server.js:59-79 | status 500 exactly when the hash threw; success exactly when the digest is the lowercased target; the flag exactly on success |
| Server.ConfigDefaults | server.js:7-8 | FLAG and MD5_XOR_HASH come from the environment when set and non-empty, and from the built-in defaults otherwise |
| Server.SubmitRejectsInvalid | server.js:40-45 | a missing, non-string or empty plaintext gets success false with the invalid-input message, whatever the hash function |
| Server.SubmitSucceedsIff | server.js:48-65 | success holds exactly when the plaintext is a non-empty string and the MD5 of its trimmed XOR with 77 equals the lowercased target digest |
| Server.FlagOnlyOnSuccess | server.js:59-79 | the flag is present exactly on success and is then the configured flag; the congratulation message is sent exactly on success; a success has status 200 |
| Server.MessageTextsDiffer | server.js:43-78 | the four message texts are pairwise different, so the message tells the outcome |
| Server.SubmitSucceedsOn | server.js:48-65 | a non-empty plaintext whose trimmed XOR with 77 hashes to the lowercased target digest succeeds |
| Server.SubmitServerError | server.js:74-79 | a hash call that throws gives status 500 and the generic error message, never a mismatch |
| Server.SubmitIgnoresSurroundingSpace | server.js:48 | white space around a non-empty submission never changes the response |
| Server.SubmitBlank | server.js:40-59 | a submission of white space only is not refused as invalid: its verdict is the one on the digest of the empty string |
| Server.SubmitTargetCase | server.js:59 | the case of the configured target digest does not change the response |
| AnalyzeHashes.AnalyzeHash | analyze-hashes.js:21-56 | found is true exactly when one of the five fixed phrases, XORed with 77, has the lowercased digest as its MD5 |
| AnalyzeHashes.AnalyzeIgnoresCase | analyze-hashes.js:41 | digests that agree once lowercased give the same answer |
| AnalyzeHashes.OnlyLastIsEcho | analyze-hashes.js:63-69 | of the five intercepted digests only the fifth is named Hash-Echo |
| AnalyzeHashes.FindRealLocation | analyze-hashes.js:71-80 | realLocationFound holds exactly when an entry named Hash-Echo matches a phrase; realLocation is then "IN FRONT OF FOUNTAIN", and empty otherwise |
| AnalyzeHashes.RealLocationIsEcho | analyze-hashes.js:74-80 | the outcome depends on the Hash-Echo digest alone |
| GenerateHash.GenerateChallenge | generate-hash.js:20-51 | the record of plaintext, XOR text, digest and code units; its fields are stated by ChallengeFields and ChallengeDecodes |
| GenerateHash.ChallengeFields | generate-hash.js:29-50 | the record echoes the plaintext; xoredText and xorBytes have its length, entry i being code unit i XORed with 77; hash is the MD5 of xoredText |
| GenerateHash.CharCodesAt | generate-hash.js:33 | the code-unit list has the string's length and entry i is code unit i |
| GenerateHash.VerificationMatches | generate-hash.js:44-48 | the verification step recomputes the same digest, so it always reports a match |
| GenerateHash.ChallengeDecodes | generate-hash.js:29 | XORing xoredText with 77 again gives back the plaintext |
| GenerateHash.GeneratedChallengeAccepted | generate-hash.js:37-42 | a server configured with the generated digest accepts the plaintext it was generated from (when the plaintext is already trimmed and the digest is lowercase) |
| JsText.Trim | script.js:262 | `trim()` cuts white space from both ends; what it keeps and drops is stated by TrimSlice, TrimStartSpec and TrimEndSpec |
| JsText.Split | script.js:268 | `split(sep)` always gives at least one piece; JoinSplit and SplitJoin state it as the inverse of join |
| JsText.Join | script.js:74 | `join(sep)` puts the separator between the pieces; JoinSplit and SplitJoin state it as the inverse of split |
| JsText.TrimStartSpec | script.js:262 | what the leading half of trim drops is white space, and what it keeps does not start with white space |
| JsText.TrimEndSpec | script.js:262 | what the trailing half of trim drops is white space, and what it keeps does not end in white space |
| JsText.TrimPadded | server.js:48 | trim removes white space added on both sides |
| JsText.TrimIdempotent | script.js:74 | trimming twice is trimming once |
| JsText.TrimEmpty | script.js:262-263 | trim gives the empty string exactly for a string of white space only |
| JsText.TrimSlice | script.js:262 | trim returns a slice of the string with only white space cut on either side, and the slice neither starts nor ends with white space |
| JsText.JoinSplit | script.js:268 | joining the pieces of split with the separator gives back the string |
| JsText.SplitJoin | script.js:268 | splitting a join of at least one piece, none holding the separator, gives back the pieces |
| JsText.SplitAroundSep | script.js:505 | splitting around one separator splits each side |
| JsText.NonEmpty | script.js:505 | filter(p => p) keeps the non-empty pieces and only those |
| JsText.ToLower | server.js:59 | the result has the string's length and each code unit lowercased (ASCII letters only) |
| JsText.Includes | script.js:530 | `includes(t)`: t occurs at some index of s; its use is stated by SearchIgnoresTermCase and GrepLinesSound |
| JsText.StartsWith | script.js:350 | `startsWith(c)` for a one-unit prefix: the string is non-empty and begins with c; its use is stated by LsRowsShort |
| JsText.ToLowerIdempotent | server.js:59 | lowercasing twice is lowercasing once, and leaves no upper-case ASCII letter |
| JsText.PadStart | script.js:358 | the result is max(n, length) long and ends with the string, preceded only by spaces (0x20) |
| JsText.PadStartTrim | script.js:358 | trimming a padded string trims the string |
| JsText.Decimal | script.js:354 | the decimal digits of a length, non-empty, with no leading zero |
| JsText.DecimalValue | script.js:354 | the digits read back as the number |
| TextTransforms.Rot13 | script.js:111-115 | the result has the string's length and each code unit replaced by its rot13 |
| TextTransforms.Rot13Unit | script.js:111-115 | a capital letter maps to another capital, a small letter to another small letter, anything else to itself |
| TextTransforms.Rot13UnitIsRotation | script.js:113 | on letters it is the rotation of the alphabet by 13 places |
| TextTransforms.Rot13Involutive | script.js:111-115 | rot13 applied twice is the identity |
| TextTransforms.Reverse | script.js:117-119 | the result has the same length and code unit i is code unit n-1-i |
| TextTransforms.ReverseInvolutive | script.js:117-119 | reversing twice is the identity |
| TextTransforms.ReverseAppend | script.js:117-119 | reversal turns a concatenation around |
| TextTransforms.XorFoldClosedForm | script.js:121-127 | the folded value is the XOR of all code units, XORed with the key once when the length is odd |
| TextTransforms.XorEncodeEvenIgnoresKey | script.js:121-127 | on a string of even length the key makes no difference |
| TextTransforms.XorEncode | script.js:121-127 | the loop returns the signed 32-bit reading of the fold of the code units XORed with the key's low 32 bits |
| TextTransforms.Int32 | script.js:124 | the signed reading of a 32-bit pattern lies in [-2^31, 2^31) and is congruent to it modulo 2^32 |
| ScriptMd5.RotateLeft | script.js:569-571 | rotateLeft is the 32-bit left rotation of section 2 of RFC 1321 |
| ScriptMd5.AddUnsigned | script.js:573-575 | addUnsigned is addition modulo 2^32 |
| ScriptMd5.Cmn | script.js:654-656 | cmn is one step of section 3.4 of RFC 1321 |
| ScriptMd5.FF | script.js:658-660 | ff is a round-1 step with F |
| ScriptMd5.GG | script.js:662-664 | gg is a round-2 step with G |
| ScriptMd5.HH | script.js:666-668 | hh is a round-3 step with H |
| ScriptMd5.II | script.js:670-672 | ii is a round-4 step with I |
| ScriptMd5.FirstRound | script.js:580-595 | the first 16 calls are steps 0 to 15 of the table of RFC 1321 |
| ScriptMd5.SecondRound | script.js:597-612 | the next 16 calls are steps 16 to 31 |
| ScriptMd5.ThirdRound | script.js:614-629 | the next 16 calls are steps 32 to 47 |
| ScriptMd5.FourthRound | script.js:631-646 | the last 16 calls are steps 48 to 63 |
| ScriptMd5.FourRounds | script.js:580-646 | the 64 calls of md5cycle leave the buffer after the four rounds of section 3.4 of RFC 1321 |
| ScriptMd5.Md5Cycle | script.js:577-652 | md5cycle leaves in x the buffer after one transform of section 3.4, each word added modulo 2^32 |
| ScriptMd5.Md5Blk | script.js:696-702 | md5blk reads 64 characters as 16 little-endian words |
| ScriptMd5.SourcePad | script.js:674-694 | the bytes md51 hashes, with the bit length in the low word only, fill whole 64-byte blocks |
| ScriptMd5.SourceDigest | script.js:674-694 | the buffer after absorbing the blocks of SourcePad from the constants of section 3.3; SourceDigestIsDigest relates it to RFC 1321 |
| ScriptMd5.SourcePadIsPad | script.js:686-692 | below 2^29 characters the bytes md51 hashes are the padding of sections 3.1 and 3.2 |
| ScriptMd5.LoadTail | script.js:682-686 | the tail holds the remaining characters and the 0x80 byte, each ORed into its lane |
| ScriptMd5.ClearTail | script.js:689 | clearing the tail leaves sixteen zero words |
| ScriptMd5.FinalBlocks | script.js:686-692 | the last one or two blocks leave the digest of the padded message |
| ScriptMd5.Md51 | script.js:674-694 | md51 returns the buffer after absorbing every block of the source's padding, starting from the constants of section 3.3 |
| ScriptMd5.Rhex | script.js:704-710 | rhex prints a word as 8 hex digits, low-order byte first |
| ScriptMd5.Hex | script.js:712-717 | hex prints the four words one after the other |
| ScriptMd5.SourceDigestIsDigest | script.js:674-694 | below 2^29 characters the buffer md51 leaves is the MD5 digest of RFC 1321 |
| ScriptMd5.Md5 | script.js:568-720 | md5 prints the source's digest, which is the MD5 of RFC 1321 in 32 lowercase hex digits below 2^29 characters |
| Rfc1321.UnhexHex | script.js:712-717 | the printed digits read back as the digest bytes |
| Rfc1321.PadShape | script.js:674-694 | the padding is the message, 0x80, zeros, then the 8-byte length, in whole 64-byte blocks |
| FileSystem.Lookup | script.js:376-381 | a found item is the item of an entry with that name; a miss means no entry has that name |
| FileSystem.Step | script.js:511-518 | one step of the walk lands on an item of the tree or fails, and always fails from a file |
| FileSystem.ResolveFrom | script.js:509-520 | after at least one segment the walk ends on an item of the tree or on null |
| FileSystem.CurrentDirectory | script.js:500-522 | what getCurrentDirectory returns; stated by HomeResolves, OnlyHomeResolves and CurrentDirectoryIsHomeOrMissing |
| FileSystem.OnlyHomeResolves | script.js:500-522 | when every root key has two or more segments, a path other than /home/agent resolves to the root object when it has no segment and to null otherwise |
| FileSystem.HomeResolves | script.js:501-503 | /home/agent resolves to the root's entry for it |
| FileSystem.PathPartsAppend | script.js:418 | appending '/' and a segment appends that segment's parts |
| FileSystem.PathPartsOfJoin | script.js:399-402 | '/' + parts.join('/') has exactly those parts, when none is empty or holds '/' |
| FileSystem.SearchNames | script.js:524-540 | the paths of the matching entries in walk order; stated by SearchIsFilteredWalk and SearchIgnoresTermCase |
| FileSystem.SearchFileSystem | script.js:524-540 | the loop returns the search's specification |
| FileSystem.SearchIsFilteredWalk | script.js:524-540 | searchFileSystem lists exactly the paths of the pre-order walk whose names contain the term, in walk order |
| FileSystem.SearchIgnoresTermCase | script.js:530 | terms that agree once lowercased give the same results |
| FileSystem.GrepLines | script.js:548-556 | at most one match per line of the file; stated by GrepLinesSound, GrepLinesComplete and GrepLinesOrdered |
| FileSystem.GrepTree | script.js:542-565 | the line matches of every file with text, in walk order; stated by GrepIsWalk |
| FileSystem.GrepLinesSound | script.js:548-556 | every match of a file is a line containing the pattern, trimmed, numbered from 1 |
| FileSystem.GrepLinesComplete | script.js:548-556 | every line containing the pattern is reported |
| FileSystem.GrepLinesOrdered | script.js:549-550 | the matches of a file come in line order, each line at most once |
| FileSystem.GrepFile | script.js:548-558 | the forEach loop returns the line matches of one file |
| FileSystem.SearchInFiles | script.js:542-565 | the loop and the recursion return the grep's specification |
| FileSystem.GrepIsWalk | script.js:542-565 | searchInFiles greps the files with text of the pre-order walk one after the other |
| ScriptTerminal.CommandOf | script.js:18-33 | `this.commands[cmd]` on the commands table; stated by FindCommand |
| ScriptTerminal.HintText | script.js:51-56 | the four hint texts, in order; stated by HintMessages |
| ScriptTerminal.BuildFileSystem | script.js:130-154 | the root object with /home/agent and its four files; stated by BuildFileSystemShape |
| ScriptTerminal.Session.AddToHistory | script.js:281-284 | addToHistory on the state; stated by AddToHistoryAppends |
| ScriptTerminal.Session.NavigateHistory | script.js:286-300 | navigateHistory on the state; stated by NavigateEmptyHistory, NavigateBounds and NavigateUpDown |
| ScriptTerminal.Session.HintCommand | script.js:50-64 | hintCommand on the state; stated by HintStep, HintsInOrder and HintKeepsValid |
| ScriptTerminal.Session.SubmitCommand | script.js:67-92 | submitCommand up to the request; stated by SubmitRejects, SubmitSends and SubmitKeepsValid |
| ScriptTerminal.Session.LsCommand | script.js:339-365 | lsCommand on the state; stated by LsInBuiltTree |
| ScriptTerminal.Session.CatCommand | script.js:367-388 | catCommand on the state; stated by CatInBuiltTree |
| ScriptTerminal.Session.CdCommand | script.js:390-419 | cdCommand on the state; stated by CdHome, CdParent, CdRejects, CdInBuiltTree and CdKeepsValid |
| ScriptTerminal.Session.HashCommand | script.js:429-443 | hashCommand on the state; stated by HashIsMd5 |
| ScriptTerminal.Session.Run | script.js:18-33 | the handler a command names; stated by RunKeepsValid |
| ScriptTerminal.Session.Dispatch | script.js:270-275 | a known first word runs its handler, an unknown one shows the error; stated by DispatchKeepsHistory and ProcessUnknownCommand |
| ScriptTerminal.Session.ProcessCommand | script.js:261-279 | processCommand on the state; stated by ProcessBlankLine, ProcessRecordsLine, ProcessParsesLine and ProcessKeepsValid |
| ScriptTerminal.FindCommand | script.js:18-33 | a found command is the one the table pairs with that name; a miss means the table has no such name |
| ScriptTerminal.BuildFileSystemShape | script.js:130-154 | the built tree has one deep root key, /home/agent, holding a directory |
| ScriptTerminal.InitialValid | script.js:5-10 | the state the constructor sets up satisfies the terminal's invariant |
| ScriptTerminal.AddToHistoryAppends | script.js:281-284 | addToHistory puts the command last and sets the cursor to the new length, keeping the invariant |
| ScriptTerminal.NavigateEmptyHistory | script.js:287 | with no history the arrow keys change nothing |
| ScriptTerminal.NavigateBounds | script.js:289-299 | the cursor ends in [0, length]; at the length the input is cleared, below it the input is that entry; nothing else changes |
| ScriptTerminal.NavigateUpDown | script.js:286-300 | from the end, up shows the last command and down comes back to the end with an empty input |
| ScriptTerminal.NavigateKeepsValid | script.js:286-300 | navigateHistory keeps the invariant |
| ScriptTerminal.HintsInOrder | script.js:50-64 | from a fresh counter, n calls show the four hints in order and then "No more hints"; the counter stops at four |
| ScriptTerminal.HintStep | script.js:58-63 | one call shows the hint under the counter and moves it on by one, or shows "No more hints" at four |
| ScriptTerminal.HintMessages | script.js:51-56 | message k of the sequence is hint k for k < 4 and "No more hints" after |
| ScriptTerminal.HintKeepsValid | script.js:50-64 | hintCommand keeps the counter at or below four |
| ScriptTerminal.SubmitRejects | script.js:68-78 | with no arguments, or arguments blank once joined and trimmed, nothing is sent and the matching error is shown |
| ScriptTerminal.SubmitSends | script.js:74-92 | otherwise exactly args.join(' ').trim() is sent |
| ScriptTerminal.SubmitKeepsValid | script.js:67-92 | every submission sent is non-empty and trimmed |
| ScriptTerminal.CurrentDirectoryIsHomeOrMissing | script.js:500-522 | for a valid terminal the current directory resolves to the home directory or to null, never to the root object or a file |
| ScriptTerminal.CdHome | script.js:391-394 | cd with no argument goes to /home/agent |
| ScriptTerminal.CdParent | script.js:398-405 | cd .. drops the last path segment when there are two or more, and otherwise changes nothing |
| ScriptTerminal.CdRejects | script.js:407-416 | a missing target or a file keeps the directory and shows the matching error |
| ScriptTerminal.CdInBuiltTree | script.js:407-418 | in the built tree cd leaves /home/agent only by cd .. or cd with no argument |
| ScriptTerminal.CdKeepsValid | script.js:390-419 | cd keeps the directory at /home/agent or a path with a segment |
| ScriptTerminal.CatInBuiltTree | script.js:367-388 | in the home directory cat shows each of the four files and reports any other name as missing, changing nothing but the output |
| ScriptTerminal.LsInBuiltTree | script.js:339-365 | in the home directory ls adds one listing of the home files' rows, changing nothing else |
| ScriptTerminal.LsRows | script.js:350-362 | the rows of the corrected listing; stated by LsRowsLong and LsRowsShort |
| ScriptTerminal.LsRowsAsWritten | script.js:350-362 | the rows of the listing as written, or the throw of padStart on a number; stated by LsLongListingThrows and LsRowsAgree |
| ScriptTerminal.LsRowsLong | script.js:350-358 | with -a or -la every entry has a long row, in order, with its size padded to eight columns |
| ScriptTerminal.LsRowsShort | script.js:350-360 | without them the rows are short, no name starts with a dot, and every other entry is listed |
| ScriptTerminal.SizeTextOfFile | script.js:354 | the size of a file with text reads back as its length |
| ScriptTerminal.ListRows | script.js:350-362 | the loop builds the rows the listing specifies |
| ScriptTerminal.LsLongListingThrows | script.js:354-358 | as written, a long listing reaching a file with text throws |
| ScriptTerminal.HomeLongListingThrows | script.js:339-365 | as written, ls -a in the home directory of the built tree throws |
| ScriptTerminal.LsRowsAgree | script.js:350-362 | elsewhere the listing as written and the corrected listing agree |
| ScriptTerminal.HashIsMd5 | script.js:429-443 | below 2^29 characters hash shows the RFC 1321 MD5 of the low bytes of the joined arguments |
| ScriptTerminal.ProcessBlankLine | script.js:262-263 | a line blank once trimmed changes nothing: no history entry, no output |
| ScriptTerminal.ProcessRecordsLine | script.js:265-277 | any other line is recorded trimmed in the history and the input is cleared |
| ScriptTerminal.DispatchKeepsHistory | script.js:270-275 | no handler touches the history |
| ScriptTerminal.ProcessUnknownCommand | script.js:270-275 | an unknown first word shows the prompt line and "Command not found", and changes nothing else |
| ScriptTerminal.ProcessParsesLine | script.js:268-272 | the first space-separated word selects the handler, which gets the remaining words as its arguments |
| ScriptTerminal.SplitCommandLine | script.js:268 | a joined line splits back into its words when none holds a space |
| ScriptTerminal.RunKeepsValid | script.js:18-33 | every handler keeps the invariant |
| ScriptTerminal.ProcessKeepsValid | script.js:261-279 | processCommand keeps the invariant |
| ScriptTerminal.Terminal.constructor | script.js:2-36 | the new terminal is at /home/agent with an empty history, cursor -1 and no hint shown, over the built tree |
| ScriptTerminal.Terminal.AddOutput | script.js:302-307 | the invariant is kept and the message is appended to the output |
| ScriptTerminal.Terminal.AddToHistory | script.js:281-284 | the fields become the state addToHistory specifies |
| ScriptTerminal.Terminal.NavigateHistory | script.js:286-300 | the fields become the state navigateHistory specifies |
| ScriptTerminal.Terminal.HintCommand | script.js:50-64 | the fields become the state hintCommand specifies |
| ScriptTerminal.Terminal.SubmitCommand | script.js:67-92 | the fields become the state the submit pre-check specifies |
| ScriptTerminal.Terminal.GetCurrentDirectory | script.js:500-522 | the loop returns the resolution of the current directory |
| ScriptTerminal.Terminal.CurrentContents | script.js:343-346 | the contents of the current directory when it is a directory |
| ScriptTerminal.Terminal.LsCommand | script.js:339-365 | the fields become the state lsCommand specifies |
| ScriptTerminal.Terminal.CatCommand | script.js:367-388 | the fields become the state catCommand specifies |
| ScriptTerminal.Terminal.CdCommand | script.js:390-419 | the fields become the state cdCommand specifies |
| ScriptTerminal.Terminal.HashCommand | script.js:429-443 | the fields become the state hashCommand specifies, the digest coming from the page's md5 |
| ScriptTerminal.Terminal.Run | script.js:18-33 | the fields become the state of the handler the command names |
| ScriptTerminal.Terminal.ProcessCommand | script.js:261-279 | the fields become the state processCommand specifies |

## Left out

- Browser and DOM work is not modelled: the key listeners of `initializeTerminal`, `setupCursor`, `getTextWidth`, `setupAntiDebug` and `scrollToBottom`. The HTML markup around each message is also left out. They are presentation only.
- The `fetch` in `submitCommand` and the messages shown after its reply are not modelled. They are network I/O. The model stops at the submission the request would carry.
- Express routing, the static files, `/health`, `app.listen` and every `console` line are left out.
- The command line of `generate-hash.js` and `analyze-hashes.js` is left out.
- Node's `crypto` MD5 is a function parameter. It hashes the UTF-8 encoding of a string, which is not part of this model.
- A request body that is not an object is not modelled. The model treats the destructured `plaintext` as either a string or something else.
- `help`, `whoami`, `uname`, `missionexploit` and `date` only print fixed text, or the clock in the case of `date`. They are modelled as one `StaticText` message each.
- `pwd` and `echo` print a string. They are modelled as a `Printed` message.
- The texts of the four files of `buildFileSystem` are constructor parameters, not literals.
- `findCommand` and `grepCommand` (script.js:461-497) are not in the `commands` table, so no input line reaches them. The searches they call are modelled.
- Lookups of `this.commands[cmd]` and of `contents[name]` go through `Object.prototype` in JavaScript. So `constructor` or `toString` find an inherited function. The model looks up own entries only.
- JsText.ToLower: lowercases ASCII letters only. JavaScript's `toLowerCase` also maps other letters.
- ScriptTerminal.Session.HashCommand: the model hashes the low byte of each code unit. The source puts the whole code unit into its word: the tail of `md51` ORs it in (script.js:684) and `md5blk` adds it (script.js:699), so a code unit above 0xFF spills into the neighbouring bytes. Only code units up to 0xFF are hashed as the source hashes them.
- ScriptMd5.Md5: equals the MD5 of RFC 1321 only below 2^29 characters. At that length and above, md51 writes only the low 32 bits of the bit length.
- `hex` turns the numbers in its array into strings in place. The model returns the concatenated string instead.
- TextTransforms.XorEncode: keys are integers. A key that is a fraction or not a number is not modelled.
- ScriptTerminal.Terminal.LsCommand: follows the corrected size column (see Findings). The `TypeError` that the code as written throws, which aborts `processCommand` before the input is cleared, is modelled only by `LsRowsAsWritten`.
- The root object has no `contents`. `cat` or `cd` there would throw, but only in a state that `Valid` excludes (`CurrentDirectoryIsHomeOrMissing`), so that throw is not modelled.
- Directory contents are lists of entries in insertion order, which is the order of `Object.entries` for the string keys used here.

## Findings

| source | as written | input that shows it | evidently intended | confidence | as-written member | corrected member |
|---|---|---|---|---|---|---|
| script.js:354-358 | for a file with text, `size` is the number `item.content.length`, and `size.padStart(8)` throws a TypeError because numbers have no `padStart` | `ls -a` (or `ls -la`) in /home/agent, whose readme.txt has text | the size column shows the length in decimal, right-aligned in eight columns | not executed | ScriptTerminal.HomeLongListingThrows | ScriptTerminal.LsRowsLong |
