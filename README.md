# Command argument grammars and sub-command dispatch

This project models the command layer of KanzeBot, a Discord bot. It is a Dafny model with proofs.

- **The grammar builder.** `ParserBuilder` is built up by chained calls. Each call appends a fixed regular-expression fragment to a pattern, and for every kind except literals it also appends a token to a token list. `build()` closes the optional blocks still open and strips the leading separator.
- **The parser `parseArgs`.** It matches the whole argument text against the pattern. Then it walks the tokens, turning each slot's capture group(s) into an argument:
  - a string, or a string split into words;
  - an int or a float;
  - a user or a channel, looked up by mention id or by name.
  
  A stack of flags decides which missing values are errors. The parser returns either the arguments or a fixed error text.
- **`CommandGroup`.** It maps sub-command keys to sub-commands. It routes a call on the first word of the argument text and pre-parses the text with the sub-command's parser. A parse error is answered with the error and the usage.
- **Access-control data.**
  - `GlobalGroup`: a mutable set of user ids.
  - `GuildGroup`: a mutable map from guild to a set of user ids.
  - `ManagedGroup`: an all-of / any-of permission check.
  - `Requirement`: a permission-set or group-set shape whose check is not written yet.

The builder, the parser loop, the dispatcher's constructor and the two membership stores are imperative, as in the source. The builder and the stores are classes whose methods update their fields. The parser is a method with a loop, proved equal to a left-fold specification (`ParserImpl.Run`/`ParserImpl.Resolve`). The pattern-free parts are functions.

The regular-expression engine is not modelled. Its verdict on an input is a parameter: whether the whole input matches, and the text of every capture group. A group that did not take part in the match is absent. The chat library's directory of users and channels is a set of maps (`Jda.Directory`). Handlers of sub-commands are function parameters. Sending a message appends to a ghost outbox.

Files:
- `wrappers.dfy`: Option and Result.
- `text.dfy`: the pieces of Java's string and number library the parser uses.
- `jda.dfy`: users, channels, guilds and the directory.
- `parser_builder.dfy`: the builder.
- `parser_impl.dfy`: `parseArgs`.
- `parser_examples.dfy`: the repository's parser tests as lemmas.
- `command_group.dfy`: the dispatcher.
- `require_type.dfy`, `global_group.dfy`, `guild_group.dfy`, `managed_group.dfy`, `requirement.dfy`: the access-control data.

## Model

| member | source | states |
|---|---|---|
| ParserBuilder.Builder.constructor | src/main/java/com/kantenkugel/kanzebot/api/command/ParserBuilder.java:36-42 | A new builder has an empty pattern, no tokens and no open block. |
| ParserBuilder.Builder.AddLiteral | src/main/java/com/kantenkugel/kanzebot/api/command/ParserBuilder.java:54-57 | The pattern gains the separator `\s+` and then the literal. The token list and the open-block count are unchanged. |
| ParserBuilder.Builder.AddSlot | src/main/java/com/kantenkugel/kanzebot/api/command/ParserBuilder.java:66-140 | What every value method does: the pattern gains the slot's fragment and the token list gains its token. The open-block count is unchanged and the open-block invariant is kept. |
| ParserBuilder.Builder.AddString | src/main/java/com/kantenkugel/kanzebot/api/command/ParserBuilder.java:66-70 | The pattern gains `(?:\s+(.*?))?` and the token list gains a string token. |
| ParserBuilder.Builder.AddSplitString | src/main/java/com/kantenkugel/kanzebot/api/command/ParserBuilder.java:79-83 | The pattern gains the same fragment as a string, and the token list gains a split-string token. |
| ParserBuilder.Builder.AddInteger | src/main/java/com/kantenkugel/kanzebot/api/command/ParserBuilder.java:92-96 | The pattern gains `(?:\s+([+-]?\d+))?` and the token list gains an integer token. |
| ParserBuilder.Builder.AddFloat | src/main/java/com/kantenkugel/kanzebot/api/command/ParserBuilder.java:105-109 | The pattern gains `(?:\s+([+-]?\d*\.?\d*))?` and the token list gains a float token. |
| ParserBuilder.Builder.AddUser | src/main/java/com/kantenkugel/kanzebot/api/command/ParserBuilder.java:121-125 | The pattern gains the mention-or-name fragment for users, and the token list gains a user token. |
| ParserBuilder.Builder.AddChannel | src/main/java/com/kantenkugel/kanzebot/api/command/ParserBuilder.java:136-140 | The pattern gains the mention-or-name fragment for channels, and the token list gains a channel token. |
| ParserBuilder.Builder.StartOptionalBlock | src/main/java/com/kantenkugel/kanzebot/api/command/ParserBuilder.java:149-154 | The pattern gains `(?:`, the token list gains an opening marker, and the open-block count goes up by one. Every prefix of the token list stays balanced. |
| ParserBuilder.Builder.EndOptionalBlock | src/main/java/com/kantenkugel/kanzebot/api/command/ParserBuilder.java:163-171 | With no block open it fails and changes nothing (the source throws). Otherwise the pattern gains `)?`, the token list gains a closing marker and the count goes down by one. No prefix of the token list ever closes more blocks than it opened. |
| ParserBuilder.Builder.CloseOpenBlocks | src/main/java/com/kantenkugel/kanzebot/api/command/ParserBuilder.java:180-182 | The closing loop leaves no block open. Each block it closes adds one closing marker to the tokens and one `)?` to the pattern, and the markers stay balanced. |
| ParserBuilder.Builder.Build | src/main/java/com/kantenkugel/kanzebot/api/command/ParserBuilder.java:179-191 | It closes every still-open block: the tokens gain one closing marker per open block and the pattern gains one `)?` each. It then strips the leading separator. The resulting grammar's optional markers are balanced. |
| ParserBuilder.FragmentCaptureGroups | src/main/java/com/kantenkugel/kanzebot/api/command/ParserBuilder.java:67-137 | Each value fragment opens exactly as many capture groups as its token reads: two for users and channels, one for the others, none for literals and markers. |
| ParserBuilder.PrefixBalancedAppend | src/main/java/com/kantenkugel/kanzebot/api/command/ParserBuilder.java:149-171 | Appending a token whose effect keeps the depth non-negative keeps every prefix balanced, and adds that effect to the depth. |
| ParserBuilder.StripFirstValue | src/main/java/com/kantenkugel/kanzebot/api/command/ParserBuilder.java:183-185 | A pattern that starts with a value fragment loses exactly that fragment's `\s+` (positions 3 to 5). |
| ParserBuilder.StripFirstLiteral | src/main/java/com/kantenkugel/kanzebot/api/command/ParserBuilder.java:186-187 | A pattern that starts with a literal loses exactly its leading `\s+` (positions 0 to 2). |
| ParserBuilder.StripAfterOptionalStart | src/main/java/com/kantenkugel/kanzebot/api/command/ParserBuilder.java:183-185 | A pattern that opens a block and then a value fragment loses the block's `(?:` rather than a separator. This is the observed behaviour, not a separator strip. |
| ParserBuilder.StripAfterOptionalStartUnbalances | src/main/java/com/kantenkugel/kanzebot/api/command/ParserBuilder.java:183-190 | After an opening block the strip removes one `(` and no `)`. A pattern whose parentheses matched is left with one unmatched `)`, which `Pattern.compile` rejects. |
| ParserBuilder.OptionalFirstUnbalanced | src/main/java/com/kantenkugel/kanzebot/api/command/ParserBuilder.java:183-190 | For `startOptionalBlock().addString().build()` the stripped pattern has one more `)` than `(`. |
| ParserImpl.RequiredArguments | src/main/java/com/kantenkugel/kanzebot/api/command/ParserBuilder.java:210-239 | The loop's text is each token's label in token order, with the leading space kept. |
| ParserImpl.ParseArgs | src/main/java/com/kantenkugel/kanzebot/api/command/ParserBuilder.java:207-427 | The imperative parser returns exactly `Resolve` of its inputs. Its early returns coincide with the specification's first error. |
| ParserImpl.Resolve | src/main/java/com/kantenkugel/kanzebot/api/command/ParserBuilder.java:207-427 | Exactly one of arguments and error is present. A failed match gives the usage error. Success gives one argument per value token, in token order, each of the kind its token produces. |
| ParserImpl.ParseToken | src/main/java/com/kantenkugel/kanzebot/api/command/ParserBuilder.java:250-424 | One pass of the loop body computes `StepToken`: the new group index, flag stack and output, or the error. |
| ParserImpl.ParseStringSlot | src/main/java/com/kantenkugel/kanzebot/api/command/ParserBuilder.java:253-267 | A string slot: a blank group is an error or null, depending on the flags; otherwise the text, and the innermost block gets its value. |
| ParserImpl.ParseIntegerSlot | src/main/java/com/kantenkugel/kanzebot/api/command/ParserBuilder.java:268-286 | An integer slot: `Integer.parseInt`'s value, or "could not get parsed" when the text is out of range. |
| ParserImpl.ParseFloatSlot | src/main/java/com/kantenkugel/kanzebot/api/command/ParserBuilder.java:287-305 | A float slot: the decimal value, or "could not get parsed" when the text has no digit. |
| ParserImpl.ParseUserSlot | src/main/java/com/kantenkugel/kanzebot/api/command/ParserBuilder.java:306-348 | A user slot reads two groups and resolves the user by id or by name. |
| ParserImpl.ParseChannelSlot | src/main/java/com/kantenkugel/kanzebot/api/command/ParserBuilder.java:349-399 | A channel slot reads two groups and resolves the channel by id (text before voice) or by name. |
| ParserImpl.ParseSplitStringSlot | src/main/java/com/kantenkugel/kanzebot/api/command/ParserBuilder.java:408-422 | A split-string slot gives the words of its text, or no words when the slot is optional and blank. |
| ParserImpl.StepToken | src/main/java/com/kantenkugel/kanzebot/api/command/ParserBuilder.java:250-424 | Only value tokens fail. The group index advances by the token's width. Markers push or pop one flag. A value token adds one argument that fits it, and earlier arguments are untouched. |
| ParserImpl.Run | src/main/java/com/kantenkugel/kanzebot/api/command/ParserBuilder.java:242-425 | After the walk, the group index is the number of groups the tokens read, there is one argument per value token, and one flag per open block. |
| ParserImpl.MarkFound | src/main/java/com/kantenkugel/kanzebot/api/command/ParserBuilder.java:262-265 | A present value sets the innermost flag and leaves the rest of the stack as it was. |
| ParserImpl.ResolveUser | src/main/java/com/kantenkugel/kanzebot/api/command/ParserBuilder.java:315-346 | When the mention group is a long, the user is found iff its id is known, and it is that id's user; failing there gives the unknown-id text. By name, no user of that name gives the not-found error. Several users with no channel in scope always fail, and any failure among several gives the ambiguity text. Any error is one of these three texts. |
| ParserImpl.UserAmongCandidates | src/main/java/com/kantenkugel/kanzebot/api/command/ParserBuilder.java:330-341 | A user resolved by name is one of the users of that name (narrowed to the guild when several share it). |
| ParserImpl.ResolveChannel | src/main/java/com/kantenkugel/kanzebot/api/command/ParserBuilder.java:358-397 | When the mention group is a long, the channel is found iff its id names a text or a voice channel; a text channel wins, and failing there gives the unknown-id text. By name, with text channels before voice channels, no channel of that name gives the not-found error. Several channels with no channel in scope always fail, and any failure among several gives the ambiguity text. Any error is one of these three texts. |
| ParserImpl.ChannelAmongCandidates | src/main/java/com/kantenkugel/kanzebot/api/command/ParserBuilder.java:374-392 | A channel resolved by name is one of the text or voice channels of that name (narrowed to the guild when several share it). |
| ParserImpl.RunFits | src/main/java/com/kantenkugel/kanzebot/api/command/ParserBuilder.java:250-426 | Every argument of a finished walk fits the value token at its position. |
| ParserImpl.FailSticks | src/main/java/com/kantenkugel/kanzebot/api/command/ParserBuilder.java:256 | An error ends the walk: later tokens do not change the result. |
| ParserImpl.GroupCountPrefix | src/main/java/com/kantenkugel/kanzebot/api/command/ParserBuilder.java:242-251 | The groups read before a token, plus that token's own, never exceed the total. |
| ParserImpl.ReadsOwnGroups | src/main/java/com/kantenkugel/kanzebot/api/command/ParserBuilder.java:251 | When the pattern has exactly the groups the tokens read, the `Math.min` clamp never bites, and each value token reads its own group(s). |
| ParserImpl.TopLevelRequired | src/main/java/com/kantenkugel/kanzebot/api/command/ParserBuilder.java:254-256 | Outside every block a blank value stops the walk with "Argument N of type K is not optional". N counts every value token so far, including earlier nulls. |
| ParserImpl.OpenedBlockOptional | src/main/java/com/kantenkugel/kanzebot/api/command/ParserBuilder.java:400-403 | The first value of a freshly opened block may be blank. It yields its empty argument and the block stays without a value. |
| ParserImpl.PresentMakesRequired | src/main/java/com/kantenkugel/kanzebot/api/command/ParserBuilder.java:262-265 | After a value, the innermost block's later values are required, and the outer flags are unchanged. |
| ParserImpl.ResolvedUserNamed | src/main/java/com/kantenkugel/kanzebot/api/command/ParserBuilder.java:318-341 | With a consistent directory, the user found carries the given id, or the given name. |
| ParserImpl.UserByName | src/main/java/com/kantenkugel/kanzebot/api/command/ParserBuilder.java:330-341 | A name finds user u iff u is the only user of that name, or several share it, the call has a channel, and u is the only one of them in that channel's guild. |
| ParserImpl.ResolvedChannelNamed | src/main/java/com/kantenkugel/kanzebot/api/command/ParserBuilder.java:361-392 | With a consistent directory, the channel found carries the given id, or the given name. |
| ParserImpl.ChannelByName | src/main/java/com/kantenkugel/kanzebot/api/command/ParserBuilder.java:374-392 | A name finds channel c iff c is the only text or voice channel of that name, or several share it, the call has a channel, and c is the only one of them in the guild. Text channels are judged by the guild's text channels and voice channels by its voice channels. |
| Jda.KeepDistinct | src/main/java/com/kantenkugel/kanzebot/api/command/ParserBuilder.java:337 | Filtering a list without duplicates leaves a list without duplicates. |
| Jda.DistinctSingleton | src/main/java/com/kantenkugel/kanzebot/api/command/ParserBuilder.java:338-341 | A duplicate-free list that holds x and nothing else is exactly [x]. |
| Text.TakeWord | src/main/java/com/kantenkugel/kanzebot/api/command/CommandGroup.java:46-47 | The key is a whitespace-free prefix of the argument text, followed by whitespace or the end of the text. |
| Text.TakeWordBeforeSpace | src/main/java/com/kantenkugel/kanzebot/api/command/CommandGroup.java:46 | A word followed by whitespace is the first element of `split("\\s+", 2)`. |
| Text.SplitJoin | src/main/java/com/kantenkugel/kanzebot/api/command/ParserBuilder.java:416 | `split("\\s+")` gives back the words that were joined by single spaces. |
| Text.SplitWs | src/main/java/com/kantenkugel/kanzebot/api/command/ParserBuilder.java:416 | `split("\\s+")`: no word holds whitespace, and only the first word can be empty (leading whitespace). `SplitJoin` is its round trip. |
| Text.PiecesOfJoin | src/main/java/com/kantenkugel/kanzebot/api/command/ParserBuilder.java:416 | The whitespace pieces of words joined by single spaces are those words. |
| Text.ParseInt | src/main/java/com/kantenkugel/kanzebot/api/command/ParserBuilder.java:277 | A parsed int is the text's signed decimal value, within 32 bits. A rejected text is not a signed decimal, or it is out of range. |
| Text.ParseIntOfString | src/main/java/com/kantenkugel/kanzebot/api/command/ParserBuilder.java:277 | `parseInt` inverts decimal printing, with a `+` sign, without one, or negated, exactly up to the 32-bit bounds. |
| Text.NatToStringValue | src/main/java/com/kantenkugel/kanzebot/api/command/ParserBuilder.java:256 | The printed argument number reads back as that number. |
| Text.IntIsFloat | src/main/java/com/kantenkugel/kanzebot/api/command/ParserBuilder.java:277-296 | Every text `parseInt` accepts, the float conversion accepts with the same value. |
| Text.FloatNeedsDigit | src/main/java/com/kantenkugel/kanzebot/api/command/ParserBuilder.java:296-302 | A text the float conversion accepts contains a digit. |
| CommandGroups.CommandGroup.constructor | src/main/java/com/kantenkugel/kanzebot/api/command/CommandGroup.java:35-40 | The map is the registry of the sub-commands, in order. Each entry pairs the command with its own parser. |
| CommandGroups.Registry | src/main/java/com/kantenkugel/kanzebot/api/command/CommandGroup.java:35-40 | Every registered entry sits under its own command's key and carries that command's own parser. |
| CommandGroups.RegistryKeys | src/main/java/com/kantenkugel/kanzebot/api/command/CommandGroup.java:37-39 | A key is registered iff some sub-command has it. |
| CommandGroups.RegistryLastWins | src/main/java/com/kantenkugel/kanzebot/api/command/CommandGroup.java:37-39 | A registered key maps to the last sub-command that has it, as a later `put` replaces an earlier one. |
| CommandGroups.Decide | src/main/java/com/kantenkugel/kanzebot/api/command/CommandGroup.java:43-82 | Empty text or an unknown first word is not handled. A sub-command runs only under its own key, with the original call apart from the arguments. A reply happens only when a parser is attached. |
| CommandGroups.CommandGroup.HandleGuild | src/main/java/com/kantenkugel/kanzebot/api/command/CommandGroup.java:42-61 | A guild call does what `Decide` says, with the channel as the parser's scope. Unhandled gives false and sends nothing. A parse error sends exactly one message to the channel and gives true. A run gives the handler's result and sends nothing. |
| CommandGroups.CommandGroup.HandlePrivate | src/main/java/com/kantenkugel/kanzebot/api/command/CommandGroup.java:63-82 | The same for a private call, with no scope; the reply goes to the private channel. |
| CommandGroups.CommandGroup.GetCustomParser | src/main/java/com/kantenkugel/kanzebot/api/command/CommandGroup.java:84-87 | A group has no parser of its own. |
| CommandGroups.RoutesByFirstWord | src/main/java/com/kantenkugel/kanzebot/api/command/CommandGroup.java:46-57 | A key alone, or a key followed by whitespace and anything, runs that key's parser-less sub-command with the call unchanged. |
| CommandGroups.ParsedBeforeRun | src/main/java/com/kantenkugel/kanzebot/api/command/CommandGroup.java:49-57 | With a parser, the parser sees the full argument text. The sub-command runs iff parsing succeeds, and then receives exactly the parser's arguments, one per value slot, with the rest of the call unchanged. Otherwise the reply is the parser's error followed by the usage. |
| GlobalGroups.GlobalGroup.constructor | src/main/java/com/kantenkugel/kanzebot/api/group/GlobalGroup.java:34-36 | A new group has the given name and no members. |
| GlobalGroups.GlobalGroup.IsManaged | src/main/java/com/kantenkugel/kanzebot/api/group/GlobalGroup.java:38-41 | A global group is managed. |
| GlobalGroups.GlobalGroup.GetName | src/main/java/com/kantenkugel/kanzebot/api/group/GlobalGroup.java:43-46 | The name is the constructor's. |
| GlobalGroups.GlobalGroup.IsMember | src/main/java/com/kantenkugel/kanzebot/api/group/GlobalGroup.java:48-51 | The guild is ignored: a user is a member exactly when its id is in the one set. |
| GlobalGroups.GlobalGroup.AddUser | src/main/java/com/kantenkugel/kanzebot/api/group/GlobalGroup.java:53-56 | The user's id joins the set. The user is then a member in every guild, and every other id keeps its membership. |
| GlobalGroups.GlobalGroup.RemoveUser | src/main/java/com/kantenkugel/kanzebot/api/group/GlobalGroup.java:58-61 | The user's id leaves the set. The user is then a member in no guild, and every other id keeps its membership. |
| GlobalGroups.GlobalGroup.AddUserAnywhere | src/main/java/com/kantenkugel/kanzebot/api/group/GlobalGroup.java:63-65 | The one-argument form adds exactly as the guild form does. |
| GlobalGroups.GlobalGroup.RemoveUserAnywhere | src/main/java/com/kantenkugel/kanzebot/api/group/GlobalGroup.java:67-69 | The one-argument form removes exactly as the guild form does. |
| GuildGroups.GuildGroup.constructor | src/main/java/com/kantenkugel/kanzebot/api/group/GuildGroup.java:35-37 | A new group has the given name and no guilds. |
| GuildGroups.GuildGroup.IsManaged | src/main/java/com/kantenkugel/kanzebot/api/group/GuildGroup.java:39-42 | A guild group is not managed. |
| GuildGroups.GuildGroup.GetName | src/main/java/com/kantenkugel/kanzebot/api/group/GuildGroup.java:44-47 | The name is the constructor's. |
| GuildGroups.GuildGroup.IsMember | src/main/java/com/kantenkugel/kanzebot/api/group/GuildGroup.java:49-52 | A user is a member of a guild exactly when its id is in that guild's set. |
| GuildGroups.GuildGroup.AddUser | src/main/java/com/kantenkugel/kanzebot/api/group/GuildGroup.java:54-58 | The guild's set is created empty if missing, then gains the user. The user is then a member there, and every other guild's set is unchanged. |
| GuildGroups.GuildGroup.RemoveUser | src/main/java/com/kantenkugel/kanzebot/api/group/GuildGroup.java:60-65 | A guild without a set is left alone. Otherwise only this user leaves only that guild's set. |
| ManagedGroups.OfPermission | src/main/java/com/kantenkugel/kanzebot/api/group/ManagedGroup.java:31-35 | The single-permission constructor gives all-of mode over exactly that one permission. |
| ManagedGroups.OfPermissions | src/main/java/com/kantenkugel/kanzebot/api/group/ManagedGroup.java:37-41 | The general constructor keeps the given mode and permissions. |
| ManagedGroups.IsManaged | src/main/java/com/kantenkugel/kanzebot/api/group/ManagedGroup.java:43-46 | A managed group is managed. |
| ManagedGroups.GetName | src/main/java/com/kantenkugel/kanzebot/api/group/ManagedGroup.java:48-51 | The name is the constructor's. |
| ManagedGroups.AnyMatchExists | src/main/java/com/kantenkugel/kanzebot/api/group/ManagedGroup.java:60 | `anyMatch` holds iff some permission of the array is held. |
| ManagedGroups.IsMember | src/main/java/com/kantenkugel/kanzebot/api/group/ManagedGroup.java:53-61 | Without a channel nobody is a member. With an empty permission array, everybody is a member under AND and nobody under OR. |
| ManagedGroups.CheckAll | src/main/java/com/kantenkugel/kanzebot/api/group/ManagedGroup.java:58 | The all-of check holds exactly when every permission of the array is held. |
| ManagedGroups.AnyMatch | src/main/java/com/kantenkugel/kanzebot/api/group/ManagedGroup.java:60 | `anyMatch` holds exactly when some permission of the array is held. |
| ManagedGroups.MemberByMode | src/main/java/com/kantenkugel/kanzebot/api/group/ManagedGroup.java:53-61 | All-of mode means every permission is held; any-of mode means some permission is held. An any-of group without permissions has no members. |
| ManagedGroups.SinglePermission | src/main/java/com/kantenkugel/kanzebot/api/group/ManagedGroup.java:31-60 | With one permission both modes mean holding it. |
| ManagedGroups.AndImpliesOr | src/main/java/com/kantenkugel/kanzebot/api/group/ManagedGroup.java:57-60 | A member under all-of with some permission is a member under any-of. |
| Requirements.OfPermission | src/main/java/com/kantenkugel/kanzebot/api/command/Requirement.java:43-48 | No type, exactly {p} as permissions, no groups. |
| Requirements.OfPermissions | src/main/java/com/kantenkugel/kanzebot/api/command/Requirement.java:58-62 | The given type, the set of the given permissions with duplicates collapsed, no groups. |
| Requirements.OfGroup | src/main/java/com/kantenkugel/kanzebot/api/command/Requirement.java:70-75 | No type, exactly {g} as groups, no permissions. |
| Requirements.OfGroups | src/main/java/com/kantenkugel/kanzebot/api/command/Requirement.java:85-89 | The given type, the set of the given groups, no permissions. |
| Requirements.SetOf | src/main/java/com/kantenkugel/kanzebot/api/command/Requirement.java:60 | A hash set built from an array holds exactly the array's elements and is no larger. |
| Requirements.IsMet | src/main/java/com/kantenkugel/kanzebot/api/command/Requirement.java:91-93 | Every requirement is met. |
| Requirements.DuplicatesCollapse | src/main/java/com/kantenkugel/kanzebot/api/command/Requirement.java:58-62 | Listing a permission again gives the same requirement. |
| ParserExamples.IntegerPlain | src/test/java/ParserTest.java:215-217 | "512" parses to the int 512. |
| ParserExamples.IntegerPlusSign | src/test/java/ParserTest.java:219-221 | "+512" parses to the int 512. |
| ParserExamples.IntegerMinusSign | src/test/java/ParserTest.java:223-225 | "-512" parses to the int -512. |
| ParserExamples.IntegerMissing | src/test/java/ParserTest.java:227-229 | Empty input gives "Argument 1 of type Integer is not optional". |
| ParserExamples.IntegerNoMatch | src/test/java/ParserTest.java:231-233 | A failed match gives the usage error with the label " INTEGER". |
| ParserExamples.IntegerOutOfRange | src/main/java/com/kantenkugel/kanzebot/api/command/ParserBuilder.java:276-284 | 2147483648 matches the slot but is "Argument 1 of type Integer could not get parsed". |
| ParserExamples.FloatWhole | src/test/java/ParserTest.java:236-238 | "512" parses to the float 512. |
| ParserExamples.FloatDecimal | src/test/java/ParserTest.java:240-242 | "8.5" parses to 8.5. |
| ParserExamples.FloatNegative | src/test/java/ParserTest.java:244-246 | "-8.5" parses to -8.5. |
| ParserExamples.FloatFractionOnly | src/test/java/ParserTest.java:248-250 | "+.5" parses to 0.5. |
| ParserExamples.FloatMissing | src/test/java/ParserTest.java:252-254 | Empty input gives "Argument 1 of type Float is not optional". |
| ParserExamples.FloatWithoutDigit | src/main/java/com/kantenkugel/kanzebot/api/command/ParserBuilder.java:295-303 | "+." matches the slot but is "Argument 1 of type Float could not get parsed". |
| ParserExamples.UserById | src/test/java/ParserTest.java:119-121 | `<@1>` gives user 1. |
| ParserExamples.UserByNicknameMention | src/test/java/ParserTest.java:123-125 | `<@!2>` gives user 2. |
| ParserExamples.UserIdUnknown | src/test/java/ParserTest.java:127-129 | `<@5>` gives the unknown-id error. |
| ParserExamples.UserNameUnknown | src/test/java/ParserTest.java:131-133 | "Use" gives the name-not-found error. |
| ParserExamples.UserNameShared | src/test/java/ParserTest.java:135-137 | "User", shared by two users, gives the multiple-users error. |
| ParserExamples.UserNameUnique | src/test/java/ParserTest.java:139-141 | "Userino" gives user 3. |
| ParserExamples.UserNarrowedToGuild | src/main/java/com/kantenkugel/kanzebot/api/command/ParserBuilder.java:334-341 | In a guild that has only user 1, "User" gives user 1. |
| ParserExamples.UserThenWordsWalk | src/test/java/ParserTest.java:145-175 | On the grammar user, "for", split string: the lookup's error, or the missing tail's "Argument 2 of type String is not optional", or the user and the tail's words. |
| ParserExamples.UserThenWordsById | src/test/java/ParserTest.java:145-147 | "<@1> for bla" gives user 1 and the words ["bla"]. |
| ParserExamples.UserThenWordsTailMissing | src/test/java/ParserTest.java:149-151 | "<@!2> for" gives "Argument 2 of type String is not optional". |
| ParserExamples.UserThenWordsNoMatch | src/test/java/ParserTest.java:153-155 | "<@!2>" alone does not match, and the error is the usage text (the test expects the shorter "Incorrect usage"). |
| ParserExamples.UserThenWordsIdUnknown | src/test/java/ParserTest.java:157-159 | "<@5> for test" gives the unknown-id error. |
| ParserExamples.UserThenWordsNameUnknown | src/test/java/ParserTest.java:161-163 | "Use for test" gives the name-not-found error. |
| ParserExamples.UserThenWordsNameShared | src/test/java/ParserTest.java:165-167 | "User for test" gives the ambiguity error. |
| ParserExamples.UserThenWordsNameUnique | src/test/java/ParserTest.java:169-171 | "Userino for test" gives user 3 and ["test"]. |
| ParserExamples.UserThenTwoWords | src/test/java/ParserTest.java:173-175 | "Userino for test test2" gives user 3 and ["test", "test2"]. |
| ParserExamples.TextChannelById | src/test/java/ParserTest.java:180-182 | `<#1>` gives text channel 1. |
| ParserExamples.VoiceChannelById | src/test/java/ParserTest.java:184-186 | `<#4>` gives voice channel 4, found after the text channels. |
| ParserExamples.ChannelIdUnknown | src/test/java/ParserTest.java:188-190 | `<#7>` gives the unknown-id error. |
| ParserExamples.ChannelNameUnknown | src/test/java/ParserTest.java:192-194 | "Tex" gives the name-not-found error. |
| ParserExamples.TextChannelNameShared | src/test/java/ParserTest.java:196-198 | "Text" gives the multiple-channels error. |
| ParserExamples.VoiceChannelNameShared | src/test/java/ParserTest.java:204-206 | "Voice" gives the multiple-channels error. |
| ParserExamples.TextChannelNameUnique | src/test/java/ParserTest.java:200-202 | "Texterino" gives text channel 3. |
| ParserExamples.VoiceChannelNameUnique | src/test/java/ParserTest.java:208-210 | "Voicerino" gives voice channel 6. |
| ParserExamples.OptionalTailWalk | src/test/java/ParserTest.java:49 | On the optional-tail grammar, the walk gives the string and then the tail's words, or no words when the tail is blank. |
| ParserExamples.OptionalTailAbsent | src/test/java/ParserTest.java:78-81 | "Hello World" gives "Hello World" and an empty word list. |
| ParserExamples.OptionalTailPresent | src/test/java/ParserTest.java:84-87 | "Hello World for everyone involved" gives "Hello World" and [everyone, involved]. |
| ParserExamples.RequiredTailWalk | src/test/java/ParserTest.java:50 | On the required-tail grammar, a blank tail is the missing second argument. |
| ParserExamples.RequiredTailMissing | src/test/java/ParserTest.java:105-108 | "Hello World for" gives "Argument 2 of type String is not optional". |
| ParserExamples.BuildIntegerGrammar | src/test/java/ParserTest.java:57 | Building a grammar from one integer slot gives the pattern `(?:([+-]?\d+))?` and one integer token. |
| ParserExamples.BuildStringThenOptional | src/test/java/ParserTest.java:49 | Building the optional-tail grammar gives its four tokens, with the block closed by the build, and its exact pattern. |

## Left out

- The regular-expression engine: compiling a pattern, whole-input matching, lazy `.*?` and backtracking. Its verdict is a parameter. The model therefore does not say which inputs a pattern matches. An example is the test's comment that "Hello World for" matches the optional-tail grammar.
- Literals with regular-expression metacharacters: `addLiteral` appends the text unquoted, and the model only keeps the text.
- ParserBuilder.Builder.Build: when the grammar opens an optional block before its first value slot, the strip removes that block's `(?:`. `Pattern.compile` then throws on the unmatched `)`, so the source's `build()` produces no parser. The model's `Build` does not compile the pattern and returns the grammar all the same. `StripAfterOptionalStartUnbalances` and `OptionalFirstUnbalanced` prove the extra `)`.
- ParserBuilder.Builder.Build: does not state that the built pattern opens as many capture groups as the tokens read. The pattern text is exact, and `ParserBuilder.FragmentCaptureGroups` counts each fragment. `ParserImpl.ReadsOwnGroups` takes the match having that many groups as its premise.
- Reusing a builder after `build()`, and sharing one token list between a builder and its parsers (aliasing): each grammar is a value here.
- `Float.parseFloat`: IEEE rounding, exponents, hex floats, `NaN`/`Infinity` and trailing `f`/`d` suffixes. The slot's pattern admits only `[+-]?digits?(.digits?)?`, and the model gives that text its exact decimal value as a real.
- Unicode digits: `\d` and `Long.parseLong` are modelled on ASCII digits only.
- A mention id that overflows a long: the name lookup with an absent name finds nobody, which gives the name-not-found error. The library's handling of a null name is not modelled.
- The chat library: caches become the maps of `Jda.Directory`; guild membership becomes sets. The name lookups are assumed to list each entity once and only entities of that name (`Jda.Consistent`) where a lemma needs it. Permission checks are a function parameter. The array form of `checkPermission` is modelled as "every permission is held".
- ParserImpl.ParseArgs: requires that no prefix of the token list closes more blocks than it opened. That is what `Build` ensures; a hand-made token list that breaks it would throw `EmptyStackException` in the source.
- GuildGroups.GuildGroup.IsMember: requires the guild to have a set. The source dereferences null otherwise.
- `MessageUtil.sendMessage` is an empty asynchronous stub. Sending is an append to a ghost outbox.
- Sub-command handlers and `getUsage`: code outside this model, taken as the `Command` datatype's fields.
- The other argument parsers a sub-command could supply: only grammars built by the builder are modelled.
- The repository's tests at ParserTest.java:103, 155, 233 and 258 expect the bare text "Incorrect usage". The code produces "Incorrect usage. Required Arguments: `...`", and the model follows the code (`ParserExamples.IntegerNoMatch`).
- Configuration classes (`ConfigImpl`, `GlobalConfigImpl`) and the interfaces without logic (`Command`, `ArgParser` apart from its result, `Group`, `Addon`, `KanzeHook`, the config interfaces) are not part of this model.
- A null require type: the source's `ManagedGroup` treats any type other than AND, null included, as any-of. The model's type is always one of the two modes.
- Requirements.OfPermissions, Requirements.OfGroups: the source's varargs constructors accept a null `RequireType`; the model always stores one of the two modes.
- Requirements.IsMet: the source's check is a placeholder that always answers true, and so is the model's.
- Concurrency: the source's hash maps and sets are not synchronized. The model is sequential.
