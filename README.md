# CharString: text segmentation and counting, in Dafny

This project models docdiff's `CharString`. `CharString` is a mixin that gives a byte string two tags:
- a character encoding, the `codeset`: ASCII, EUC-JP, Shift_JIS, UTF-8, JIS or UNKNOWN;
- a line-ending convention, the `eol`: CR, LF, CRLF, NONE or UNKNOWN.

Under those tags the string can be cut into:
- lines (`to_line`);
- bytes (`to_byte`);
- characters (`to_char`);
- words (`to_word`).

It can also be counted by bytes, characters of each class, words of each kind and lines of each kind (the `count_*` family). The module functions `guess_eol` and `guess_codeset` detect the two tags from the text.

The library file itself is not part of this model. Its behaviour is taken from its test suite, `testcharstring.rb`, which fixes every operation by input/output examples. The model is a behavioural model pinned to those tests:
- general definitions;
- general properties proved about them: tilings that give back the input, partitions of the counters, and how the detectors answer;
- each test example, stated as a lemma about the definitions and proved.

Bytes are integers 0..255 (`ByteStrings.Byte`). Ruby's `nil` is `Option.None`.

Word grouping and the counters are stated for any classifier, a function from character tokens to their kind (`Bytes -> Kind`). The classifier of a codeset is `EncodingTable.Classifier(enc)`.

Modules, in dependency order:
- `ByteStrings` (bytestrings.dfy): bytes, byte strings, `Flatten`.
- `Tags` (tags.dfy): the two tags, and the subsets of them that segmentation works under.
- `EncodingTable` (encoding_table.dfy): the per-codeset table, covering:
  - the width of a character from its lead byte (EUC-JP, Shift_JIS, and UTF-8 by the lead-byte pattern: 0xxxxxxx, 110xxxxx, 1110xxxx or 11110xxx, each followed by that many 10xxxxxx continuation bytes);
  - which byte patterns are well-formed characters;
  - a coarse script classification that is enough for the tests' texts: JIS X 0208 rows for EUC-JP and Shift_JIS, Unicode blocks for UTF-8.
- `Chars` (chars.dfy): `to_byte` and `to_char`.
- `Lines` (lines.dfy): `to_line`.
- `Words` (words.dfy): `to_word`, as a small automaton, together with an independent description of a word's shape.
- `Counters` (counters.dfy): the `count_*` family.
- `Detector` (detector.dfy): `guess_eol` and `guess_codeset`.
- `CharStrings` (charstring.dfy): the tagged string as a class whose tag fields are filled on first read.
- `Literals` (literals.dfy): general lemmas that turn a concrete text, written out in parts, into the results of the operations on it:
  - groups of character tokens give `to_char`, `to_word` and the character and word counters;
  - lines given as content tokens and a terminator give `to_line` and the line counters;
  - pieces cut at the terminators give `guess_eol`;
  - character tokens that are well-formed give `guess_codeset`.
- The example modules (`*_examples.dfy`): the test cases.

Decisions where the tests settle what a prose description would leave open:
- A Latin word takes at most one following space or tab. Blanks after that blank, and a line break after them, make one token together. This is the only reading consistent with testcharstring.rb:143-148 (`" foo  bar"` splits as `" "`, `"foo "`, `" "`, `"bar"`), 232-245 (`"foo bar   \r\nbaz quux\r\n"` has 6 words, 5 of them Latin) and 413-420. A lone CR LF token is neither a Latin nor a Japanese word.
- A Japanese word is a run of kanji or katakana followed by hiragana, or a run of one other script. The prolonged sound mark joins any Japanese-script run. `"日本語の文字"` splits as `["日本語の", "文字"]`, so once hiragana has followed the run, no further kanji joins.
- `guess_codeset` answers ASCII for seven-bit text before trying UTF-8. Seven-bit text is valid UTF-8 too, and the test at testcharstring.rb:900-904 expects ASCII.
- A control character runs with the letters, digits and punctuation, so `"foo\x01bar"` is one word. Control characters are the bytes 0x00-0x1F other than tab and the line breaks 0x0A-0x0D, the byte 0x7F, and any stray byte that starts no character of the codeset. A word of such bytes alone counts for `count_word` but is neither a Latin nor a Japanese word. No test fixes how these bytes split.
- A valid Japanese word holds a kanji, a kana or the prolonged sound mark. A word of Japanese punctuation alone, such as `"。"` or `"「」"`, is a Japanese word but not a valid one, as a word of ASCII punctuation alone is a Latin word but not a valid one (testcharstring.rb:413-452: `"--"` is counted as a word but not as valid).
- A line whose content holds no printable character is blank, even when the content is a control byte rather than a space.
- When both tags are unusable, the codeset error is reported first.

## Model

| member | source | states |
|---|---|---|
| EncodingTable.Width | testcharstring.rb:738-769 | The character at the front of the text is one to four bytes long, never longer than the text, and one byte when the lead byte is seven-bit. |
| EncodingTable.CharLen | testcharstring.rb:349-356 | A character token is one to four bytes long; under CRLF a CR LF pair is one two-byte token. |
| EncodingTable.WidthOfPrefix | testcharstring.rb:325-356 | A character's width depends only on its own bytes: cutting the text just after it does not change it. |
| EncodingTable.WellFormedWidth | testcharstring.rb:325-356 | A well-formed character of the codeset is read back whole, with exactly its own length. |
| EncodingTable.MultiByteWellFormed | testcharstring.rb:534-565 | A multi-byte character token is always a well-formed character of the codeset. |
| EncodingTable.ClassOf | testcharstring.rb:357-412 | Counting classes: letters, digits and ASCII punctuation are Latin graph; space and tab are Latin blank; the ideographic space is Japanese blank; other Japanese characters are Japanese graph; line breaks and controls are in none of these. |
| EncodingTable.KindOf | testcharstring.rb:283-324 | A one-byte token is classified by its byte, the CR LF pair is a line break, and only seven-bit one-byte tokens are Latin. |
| Chars.ToChar | testcharstring.rb:155-182 | `to_char` reads the text left to right one character token at a time; there are never more tokens than bytes, and the text is at most four bytes per token on average (the bound for each token is Chars.ToCharTokens). |
| Chars.ToByteTiles | testcharstring.rb:183-189 | `to_byte` has one one-byte token per input byte, in order, so CR LF gives two tokens; the tokens concatenate to the input. |
| Chars.ToCharTiles | testcharstring.rb:155-182 | The `to_char` tokens concatenate to the input. |
| Chars.ToCharTokens | testcharstring.rb:325-356 | Every `to_char` token is one to four bytes and is a whole character read back with its own width, or the CR LF pair under CRLF. |
| Chars.CrLfToken | testcharstring.rb:176-182 | A CR LF pair is one token exactly under CRLF; under CR, LF or NONE it is two one-byte tokens, and reading goes on after it unchanged. |
| Chars.ToCharCount | testcharstring.rb:197-203 | There are never more characters than bytes, and ASCII text read without CRLF gives exactly the `to_byte` tokens. |
| Chars.ToCharCons | testcharstring.rb:325-356 | A well-formed character, or CR LF under CRLF, is read back as the first token whatever follows it. |
| Chars.ToCharOfChars | testcharstring.rb:325-356 | Reading the concatenation of such tokens gives back exactly those tokens, followed by what reading the rest gives. |
| Lines.ToLine | testcharstring.rb:60-122 | `to_line` cuts the text just after each terminator; there are never more lines than bytes, and a non-empty text has at least one line. |
| Lines.LineEnd | testcharstring.rb:60-122 | The end of the line that starts at a given index lies within the text and past that index. |
| Lines.LineEndFound | testcharstring.rb:60-122 | A line ends just after the first terminator at or after its start, or at the end of the text if there is none. |
| Lines.ToLineTiles | testcharstring.rb:60-122 | The `to_line` lines concatenate to the input. |
| Lines.ToLineLines | testcharstring.rb:60-122 | Every line ends with its terminator and holds no earlier one; only the last line may lack a terminator. |
| Lines.ToLineOfLines | testcharstring.rb:60-122 | Splitting a concatenation of such lines gives back exactly those lines, so the lines of a text are unique. |
| Lines.EmptyLineToken | testcharstring.rb:74-80 | A terminator at the start of the text is a line of its own, and splitting goes on after it unchanged. |
| Lines.NoEolOneLine | testcharstring.rb:968-977 | With no end-of-line convention (NONE, what `guess_eol` answers for text without a line break), the whole text is one line. No test calls `to_line` under NONE; this is the model's reading. |
| Words.RunOf | testcharstring.rb:318-324 | A Japanese character opens a Japanese run and no other character does, so Latin and Japanese text never open the same run. |
| Words.Step | testcharstring.rb:283-324 | A character joins a word only when it belongs to the word's run or may follow that run; once past the run, a word never returns to it; the joining character is Japanese exactly when the run is. |
| Words.WordsOf | testcharstring.rb:125-154 | Grouping gives at most one word per character, and at least one word for a non-empty sequence. |
| Words.ToWord | testcharstring.rb:125-154 | `to_word` gives at most one word per byte. |
| Words.Extend | testcharstring.rb:125-154 | A word never takes more characters than there are. |
| Words.ShapeIffAccepted | testcharstring.rb:283-324 | The automaton accepts a character sequence exactly when it has the shape of a word: the rest of its opening character's run, then what may follow that run. |
| Words.FirstWord | testcharstring.rb:125-154 | The first word of a character sequence has the word shape, and the character after it could not have extended it. |
| Words.WordsTiles | testcharstring.rb:125-154 | The words concatenate to the characters. |
| Words.WordsShapes | testcharstring.rb:283-324 | Every word has the word shape, and no word could have taken the first character of the next word. |
| Words.WordsOfWords | testcharstring.rb:283-324 | Grouping the characters of a sequence of such words gives back exactly those words, so the word split is unique. |
| Words.WordHomogeneous | testcharstring.rb:318-324 | A word never mixes Japanese and non-Japanese characters, so a Latin run is always a token of its own. |
| Words.ToWordTiles | testcharstring.rb:125-154 | The `to_word` tokens concatenate to the input. |
| Counters.IsLatinWord | testcharstring.rb:239-245 | Definition, without a contract of its own: a Latin word holds a letter, digit, punctuation mark, space or tab. Its relation to the other word kinds is stated by Counters.LatinJaDisjoint and Counters.WordCountsOfShapes. |
| Counters.IsJaWord | testcharstring.rb:421-428 | Definition, without a contract of its own: a Japanese word opens with a Japanese character. |
| Counters.IsLatinValidWord | testcharstring.rb:246-252 | Definition, without a contract of its own: a valid Latin word holds a letter or a digit, so punctuation or blanks alone are not valid. |
| Counters.IsJaValidWord | testcharstring.rb:437-444 | Definition, without a contract of its own: a valid Japanese word is a Japanese word holding a kanji, a kana or the prolonged sound mark, so Japanese symbols or ideographic spaces alone are not valid. |
| Counters.SymbolsNotValid | testcharstring.rb:413-452 | A word of Japanese symbols and ideographic spaces alone is a Japanese word but is valid neither as Japanese nor as Latin, as `"--"` is a word but not a valid one. |
| Counters.CountByte | testcharstring.rb:190-196 | `count_byte` is the length of the text. |
| Counters.CountChar | testcharstring.rb:197-203 | `count_char` is at most the number of bytes, and equals it for ASCII text read without CRLF. |
| Counters.ClassCountsPartition | testcharstring.rb:204-231 | Graph characters are the Latin and Japanese graph ones, blank characters are the Latin and Japanese blank ones, and these together with controls make up all the characters. |
| Counters.CharCountsPartition | testcharstring.rb:365-412 | `count_graph_char` = `count_latin_graph_char` + `count_ja_graph_char`, `count_blank_char` = `count_latin_blank_char` + `count_ja_blank_char`, and graph plus blank is at most `count_char`. |
| Counters.AnyIff | testcharstring.rb:413-452 | The recursive word test holds exactly when some character of the word passes it. |
| Counters.LatinJaDisjoint | testcharstring.rb:413-452 | No word is both a Latin and a Japanese word. |
| Counters.WordsOpenPlain | testcharstring.rb:413-428 | When no character of a sequence is a line break or a control character, no word grouped from it opens with one. |
| Counters.WordCountsOfShapes | testcharstring.rb:413-452 | Over well-shaped words: Latin plus Japanese words are at most all words, and exactly all words when none opens with a line break or a control character; valid words are valid Latin plus valid Japanese words, and each validity count is within its kind. |
| Counters.WordCounts | testcharstring.rb:413-452 | The word counters of a text: `count_word` is the number of `to_word` tokens, and the inequalities and the sum above hold; when no character of the text is a line break or a control character, `count_latin_word` plus `count_ja_word` is `count_word`. The tests' texts end in CR LF, which is a word of neither kind. |
| Counters.Content | testcharstring.rb:253-280 | A line's content is the line without its terminator, if it ends with one. |
| Counters.KindOfLine | testcharstring.rb:253-280 | A line is empty exactly when it has no content, and a graph line exactly when its content holds a printable character; every other line is blank. |
| Counters.EmptyLineIsTerminator | testcharstring.rb:267-273 | A line of `to_line` is empty exactly when it is a bare terminator. |
| Counters.LineKindsPartition | testcharstring.rb:453-484 | Over any lines, the empty, blank and graph lines add up to all of them. |
| Counters.LineCounts | testcharstring.rb:453-484 | `count_empty_line` + `count_blank_line` + `count_graph_line` = `count_line`. |
| Detector.Valid | testcharstring.rb:905-924 | Definition, without a contract of its own: a text is valid in a codeset when it reads, character by character, as well-formed characters of it. Detector.ValidIffTokens relates it to `to_char`. |
| Detector.TerminatorsByPosition | testcharstring.rb:963-997 | The terminator kinds found are exactly those that occur somewhere: a CR LF pair, a CR not followed by LF, an LF not preceded by CR. |
| Detector.GuessEolOf | testcharstring.rb:968-997 | NONE exactly when no terminator occurs, UNKNOWN exactly when two kinds are mixed, otherwise the one kind that occurs. |
| Detector.GuessEol | testcharstring.rb:963-967 | `guess_eol` of nil is nil, and of a string it is the guess above. |
| Detector.GuessEolByPosition | testcharstring.rb:973-997 | The guess stated in terms of the positions where terminators occur. |
| Detector.ValidIffTokens | testcharstring.rb:898-939 | A text is valid in a codeset exactly when every token it is read as is a well-formed character. |
| Detector.AsciiValid | testcharstring.rb:900-904 | Seven-bit text is valid in every codeset, and it is the only text valid as ASCII. |
| Detector.GuessCodesetOf | testcharstring.rb:898-939 | JIS exactly when a JIS escape occurs; otherwise ASCII exactly for seven-bit text; a segmentable answer is a codeset the text is valid in; UNKNOWN exactly when the text is valid in none. |
| Detector.GuessCodeset | testcharstring.rb:925-929 | `guess_codeset` of nil is nil, and of a string it is the guess above. |
| Detector.GuessCodesetPrefers | testcharstring.rb:905-924 | The guess prefers the earlier candidate: a text guessed as EUC-JP is not valid UTF-8, and one guessed as Shift_JIS is valid in neither UTF-8 nor EUC-JP. |
| CharStrings.Measure | testcharstring.rb:190-280 | A counter fails exactly when it needs a tag that cannot be segmented under, reporting the codeset first; otherwise it gives the count under the tags. |
| CharStrings.CharString.constructor | testcharstring.rb:14-19 | A string extended with `CharString` has neither tag set. |
| CharStrings.CharString.CurrentCodeset | testcharstring.rb:940-962 | The codeset reads as the one that was set, or else as the guess from the text. |
| CharStrings.CharString.CurrentEol | testcharstring.rb:998-1015 | The eol reads as the one that was set, or else as the guess from the text. |
| CharStrings.CharString.SetCodeset | testcharstring.rb:14-37 | `codeset=` sets the codeset and leaves the eol alone. |
| CharStrings.CharString.SetEol | testcharstring.rb:40-57 | `eol=` sets the eol and leaves the codeset alone. |
| CharStrings.CharString.GetCodeset | testcharstring.rb:940-962 | Reading the codeset returns the one set, or the guess, and from then on keeps it. |
| CharStrings.CharString.GetEol | testcharstring.rb:998-1015 | Reading the eol returns the one set, or the guess, and from then on keeps it. |
| CharStrings.CharString.ToByte | testcharstring.rb:183-189 | `to_byte` gives one one-byte token per byte and needs no tag. |
| CharStrings.CharString.ToLine | testcharstring.rb:60-122 | `to_line` settles the eol tag; under a usable eol it gives the lines of the text, which concatenate to it; under UNKNOWN it fails. |
| CharStrings.CharString.ToChar | testcharstring.rb:155-182 | `to_char` settles both tags and gives the characters under them, or the error for the first unusable tag. |
| CharStrings.CharString.ToWord | testcharstring.rb:125-154 | `to_word` settles the codeset tag and gives the words under it, or fails when the codeset has no character table. |
| CharStrings.CharString.CountBytes | testcharstring.rb:190-196 | `count_byte` is the length of the text. |
| CharStrings.CharString.Count | testcharstring.rb:197-280 | Each counter settles exactly the tags it needs and gives the count under them. |
| EncodingTable.Utf8CodePoint3Bits | testcharstring.rb:738-769 | On a well-formed three-byte UTF-8 character, the code point computed by taking off the marker bits is the one section 3 of RFC 3629 defines: the low four bits of the lead byte, then six bits from each continuation byte. |
| Tags.Terminator | testcharstring.rb:40-57 | The terminator of CR, LF or CRLF is one or two bytes, each a CR or an LF; NONE is exactly the convention without a terminator. |
| Counters.CountClass | testcharstring.rb:197-231 | A class count never exceeds the number of characters. |
| Counters.CountClassAppend | testcharstring.rb:204-231 | Class counts add up over concatenated character sequences. |
| Counters.CountWords | testcharstring.rb:232-252 | A filtered word count never exceeds the number of words, and with no filter it is the number of words. |
| Counters.CountWordsAppend | testcharstring.rb:232-252 | Word counts add up over concatenated word sequences. |
| Counters.CountLines | testcharstring.rb:253-280 | A line count of one kind never exceeds the number of lines. |
| Counters.CountLinesAppend | testcharstring.rb:253-280 | Line counts add up over concatenated line sequences. |
| Detector.TerminatorsAppend | testcharstring.rb:993-997 | The terminators of a concatenation are those of its two parts, unless a CR ending the first part and an LF starting the second join into a CR LF pair. |
| Detector.NoEscapeNoJis | testcharstring.rb:900-924 | A text without an ESC byte holds no JIS escape. |
| Detector.ValidCons | testcharstring.rb:898-939 | A text that starts with a well-formed character is valid exactly when the rest is. |
| Detector.InvalidFront | testcharstring.rb:935-939 | A text whose first byte stands alone and is no character of the codeset is not valid in it. |
| Literals.ReadChars | testcharstring.rb:155-182 | When every token reads alone, `to_char` of the tokens' concatenation gives back exactly those tokens. |
| Literals.ReadLines | testcharstring.rb:60-122 | When every element is a line, ending with its terminator or else last, `to_line` of their concatenation gives back exactly those lines. |
| Literals.ReadWords | testcharstring.rb:125-154 | When every group is a word the automaton accepts and the next word's first character cannot extend it, grouping their characters gives back exactly those words. |
| Literals.ReadWordText | testcharstring.rb:125-154 | Such groups of well-formed characters are the words of their concatenation, and `to_word` of it gives each group's bytes. |
| Literals.ClassCountOfGroups | testcharstring.rb:204-231 | A class count of a text given as character groups is the count of that class over the groups. |
| Literals.CharCountOfGroups | testcharstring.rb:197-203 | `count_char` of a text given as character groups is the number of their tokens. |
| Literals.WordCountOfGroups | testcharstring.rb:232-252 | A word counter of a text given as its words is the number of those words that pass the filter. |
| Literals.RowIsLine | testcharstring.rb:253-280 | Content without CR and LF bytes, followed by the terminator (or by nothing, if it is the non-empty last line), is a line, and its content is that text. |
| Literals.ReadRows | testcharstring.rb:253-280 | When every row is such a line, `to_line` of the text gives back exactly the rows' lines. |
| Literals.RowKindOfLine | testcharstring.rb:253-280 | The kind of a row's line is decided by its content tokens: empty without any, graph with a graph character, otherwise blank. |
| Literals.CountRows | testcharstring.rb:253-280 | The line count of one kind over the rows' lines is the number of rows of that kind. |
| Literals.LineCountsOfRows | testcharstring.rb:253-280 | `count_line` of a text given as rows is the number of rows, and each line-kind counter is the number of rows of that kind. |
| Literals.TerminatorsOfPieces | testcharstring.rb:963-997 | The terminators found in a text cut into break-free runs and single terminators are exactly those the pieces stand for. |
| Literals.GuessEolOfPieces | testcharstring.rb:963-997 | `guess_eol` of such a text is NONE for no terminator piece, the one kind of terminator pieces when there is one, and UNKNOWN when kinds are mixed. |
| Literals.ValidOfTokens | testcharstring.rb:898-939 | The concatenation of well-formed characters is valid text. |
| Literals.GuessCodesetOfTokens | testcharstring.rb:898-962 | Text made of well-formed characters of a codeset, without an ESC byte, seven-bit exactly for ASCII, and invalid in every candidate tried before that codeset, is guessed as that codeset. |
| LineExamples.CrToLineCase | testcharstring.rb:60-66 | to_line of "foo\rbar\r" with CR is "foo\r", "bar\r" |
| LineExamples.CrToLineChompedLastlineCase | testcharstring.rb:67-73 | to_line of "foo\rbar" with CR is "foo\r", "bar" |
| LineExamples.CrToLineEmptyLineCase | testcharstring.rb:74-80 | to_line of "foo\r\rbar\r" with CR is "foo\r", "\r", "bar\r" |
| LineExamples.LfToLineCase | testcharstring.rb:81-87 | to_line of "foo\nbar\n" with LF is "foo\n", "bar\n" |
| LineExamples.LfToLineChompedLastlineCase | testcharstring.rb:88-94 | to_line of "foo\nbar" with LF is "foo\n", "bar" |
| LineExamples.LfToLineEmptyLineCase | testcharstring.rb:95-101 | to_line of "foo\n\nbar\n" with LF is "foo\n", "\n", "bar\n" |
| LineExamples.CrlfToLineCase | testcharstring.rb:102-108 | to_line of "foo\r\nbar\r\n" with CRLF is "foo\r\n", "bar\r\n" |
| LineExamples.CrlfToLineChompedLastlineCase | testcharstring.rb:109-115 | to_line of "foo\r\nbar" with CRLF is "foo\r\n", "bar" |
| LineExamples.CrlfToLineEmptyLineCase | testcharstring.rb:116-122 | to_line of "foo\r\n\r\nbar\r\n" with CRLF is "foo\r\n", "\r\n", "bar\r\n" |
| AsciiExamples.ToWordCase | testcharstring.rb:125-130 | to_word of "foo bar" read as ASCII is "foo ", "bar" |
| AsciiExamples.ToWordWithsymbolCase | testcharstring.rb:131-136 | to_word of "foo (bar) baz-baz" read as ASCII is "foo ", "(bar) ", "baz-baz" |
| AsciiExamples.ToWordWithquoteCase | testcharstring.rb:137-142 | to_word of "foo's 'foo' \"bar\" 'baz.'" read as ASCII is "foo's ", "'foo' ", "\"bar\" ", "'baz.'" |
| AsciiExamples.ToWordWithlongspaceCase | testcharstring.rb:143-148 | to_word of " foo  bar" read as ASCII is " ", "foo ", " ", "bar" |
| AsciiExamples.ToWordWithdashCase | testcharstring.rb:149-154 | to_word of "foo -- bar, baz - quux" read as ASCII is "foo ", "-- ", "bar, ", "baz ", "- ", "quux" |
| AsciiExamples.ToCharCase | testcharstring.rb:155-161 | to_char of "foo bar" read as ASCII with LF is "f", "o", "o", " ", "b", "a", "r" |
| AsciiExamples.ToCharWithEolCrCase | testcharstring.rb:162-168 | to_char of "foo bar\r" read as ASCII with CR is "f", "o", "o", " ", "b", "a", "r", "\r" |
| AsciiExamples.ToCharWithEolLfCase | testcharstring.rb:169-175 | to_char of "foo bar\n" read as ASCII with LF is "f", "o", "o", " ", "b", "a", "r", "\n" |
| AsciiExamples.ToCharWithEolCrlfCase | testcharstring.rb:176-182 | to_char of "foo bar\r\n" read as ASCII with CRLF is "f", "o", "o", " ", "b", "a", "r", "\r\n" |
| AsciiExamples.ToByteCase | testcharstring.rb:183-189 | to_byte of "foo bar\r\n" is its nine bytes, one token each |
| AsciiExamples.CountByteCase | testcharstring.rb:190-196 | count_byte of "foo bar\r\n" is 9 |
| AsciiExamples.CountCharCase | testcharstring.rb:197-203 | count_char of "foo bar\r\nbaz quux\r\n" read as ASCII with CRLF is 17 |
| AsciiExamples.CountLatinGraphCharCase | testcharstring.rb:204-210 | count_latin_graph_char of "foo bar\r\nbaz quux\r\n" read as ASCII with CRLF is 13 |
| AsciiExamples.CountGraphCharCase | testcharstring.rb:211-217 | count_graph_char of "foo bar\r\nbaz quux\r\n" read as ASCII with CRLF is 13 |
| AsciiExamples.CountLatinBlankCharCase | testcharstring.rb:218-224 | count_latin_blank_char of "foo bar\r\nbaz\tquux\r\n" read as ASCII with CRLF is 2 |
| AsciiExamples.CountBlankCharCase | testcharstring.rb:225-231 | count_blank_char of "foo bar\r\nbaz\tquux\r\n" read as ASCII with CRLF is 2 |
| AsciiExamples.CountWordCase | testcharstring.rb:232-238 | count_word of "foo bar   \r\nbaz quux\r\n" read as ASCII is 6 |
| AsciiExamples.CountLatinWordCase | testcharstring.rb:239-245 | count_latin_word of "foo bar   \r\nbaz quux\r\n" read as ASCII is 5 |
| AsciiExamples.CountLatinValidWordCase | testcharstring.rb:246-252 | count_latin_valid_word of "1 foo   \r\n%%% ()\r\n" read as ASCII is 2 |
| AsciiExamples.CountLineCase | testcharstring.rb:253-259 | count_line of "foo\r\nbar" read as ASCII with CRLF is 2 |
| AsciiExamples.CountGraphLineCase | testcharstring.rb:260-266 | count_graph_line of "foo\r\n " read as ASCII with CRLF is 1 |
| AsciiExamples.CountEmptyLineCase | testcharstring.rb:267-273 | count_empty_line of "foo\r\n \r\n\t\r\n\r\n" read as ASCII with CRLF is 1 |
| AsciiExamples.CountBlankLineCase | testcharstring.rb:274-280 | count_blank_line of "\r\n \r\n\t\r\n " read as ASCII with CRLF is 3 |
| EucJpExamples.ToWordCase | testcharstring.rb:283-289 | to_word of "日本語の文字foo bar" read as EUC-JP is "日本語の", "文字", "foo ", "bar" |
| EucJpExamples.ToWordKanhiraCase | testcharstring.rb:290-296 | to_word of "日本語の文字" read as EUC-JP is "日本語の", "文字" |
| EucJpExamples.ToWordKatahiraCase | testcharstring.rb:297-303 | to_word of "カタカナの文字" read as EUC-JP is "カタカナの", "文字" |
| EucJpExamples.ToWordKataonbikiCase | testcharstring.rb:304-310 | to_word of "ルビーの指輪" read as EUC-JP is "ルビーの", "指輪" |
| EucJpExamples.ToWordHiraonbikiCase | testcharstring.rb:311-317 | to_word of "わールビーだ" read as EUC-JP is "わー", "ルビーだ" |
| EucJpExamples.ToWordLatinmixCase | testcharstring.rb:318-324 | to_word of "日本語とLatinの文字" read as EUC-JP is "日本語と", "Latin", "の", "文字" |
| EucJpExamples.ToCharCase | testcharstring.rb:325-332 | to_char of "日本語a b" read as EUC-JP with LF is "日", "本", "語", "a", " ", "b" |
| EucJpExamples.ToCharWithCrCase | testcharstring.rb:333-340 | to_char of "日本語a b\r" read as EUC-JP with CR is "日", "本", "語", "a", " ", "b", "\r" |
| EucJpExamples.ToCharWithLfCase | testcharstring.rb:341-348 | to_char of "日本語a b\n" read as EUC-JP with LF is "日", "本", "語", "a", " ", "b", "\n" |
| EucJpExamples.ToCharWithCrlfCase | testcharstring.rb:349-356 | to_char of "日本語a b\r\n" read as EUC-JP with CRLF is "日", "本", "語", "a", " ", "b", "\r\n" |
| EucJpExamples.CountCharCase | testcharstring.rb:357-364 | count_char of "日本語a b\r\n" read as EUC-JP with CRLF is 7 |
| EucJpExamples.CountLatinGraphCharCase | testcharstring.rb:365-372 | count_latin_graph_char of "日本語a b\r\n" read as EUC-JP with CRLF is 2 |
| EucJpExamples.CountJaGraphCharCase | testcharstring.rb:373-380 | count_ja_graph_char of "日本語a b\r\n" read as EUC-JP with CRLF is 3 |
| EucJpExamples.CountGraphCharCase | testcharstring.rb:381-388 | count_graph_char of "日本語a b\r\n" read as EUC-JP with CRLF is 5 |
| EucJpExamples.CountLatinBlankCharCase | testcharstring.rb:389-396 | count_latin_blank_char of "日本語\ta b\r\n" read as EUC-JP with CRLF is 2 |
| EucJpExamples.CountJaBlankCharCase | testcharstring.rb:397-404 | count_ja_blank_char of "日本　語\ta b\r\n" read as EUC-JP with CRLF is 1 |
| EucJpExamples.CountBlankCharCase | testcharstring.rb:405-412 | count_blank_char of "日本　語\ta b\r\n" read as EUC-JP with CRLF is 3 |
| EucJpExamples.CountWordCase | testcharstring.rb:413-420 | count_word of "日本　語a b --\r\n" read as EUC-JP is 7 |
| EucJpExamples.CountJaWordCase | testcharstring.rb:421-428 | count_ja_word of "日本　語a b --\r\n" read as EUC-JP is 3 |
| EucJpExamples.CountLatinValidWordCase | testcharstring.rb:429-436 | count_latin_valid_word of "日本　語a b --\r\n" read as EUC-JP is 2 |
| EucJpExamples.CountJaValidWordCase | testcharstring.rb:437-444 | count_ja_valid_word of "日本　語a b --\r\n" read as EUC-JP is 2 |
| EucJpExamples.CountValidWordCase | testcharstring.rb:445-452 | count_valid_word of "日本　語a b --\r\n" read as EUC-JP is 4 |
| EucJpExamples.CountLineCase | testcharstring.rb:453-460 | count_line of "日本語\r\n　\r\n \r\n\r\nfoo\r\nbar" read as EUC-JP with CRLF is 6 |
| EucJpExamples.CountGraphLineCase | testcharstring.rb:461-468 | count_graph_line of "日本語\r\n　\r\n \r\n\r\nfoo\r\nbar" read as EUC-JP with CRLF is 3 |
| EucJpExamples.CountEmptyLineCase | testcharstring.rb:469-476 | count_empty_line of "日本語\r\n　\r\n \r\n\r\nfoo\r\nbar" read as EUC-JP with CRLF is 1 |
| EucJpExamples.CountBlankLineCase | testcharstring.rb:477-484 | count_blank_line of "日本語\r\n　\r\n \r\n\r\nfoo\r\nbar" read as EUC-JP with CRLF is 2 |
| ShiftJisExamples.ToWordCase | testcharstring.rb:492-498 | to_word of "日本語の文字foo bar" read as Shift_JIS is "日本語の", "文字", "foo ", "bar" |
| ShiftJisExamples.ToWordKanhiraCase | testcharstring.rb:499-505 | to_word of "日本語の文字" read as Shift_JIS is "日本語の", "文字" |
| ShiftJisExamples.ToWordKatahiraCase | testcharstring.rb:506-512 | to_word of "カタカナの文字" read as Shift_JIS is "カタカナの", "文字" |
| ShiftJisExamples.ToWordKataonbikiCase | testcharstring.rb:513-519 | to_word of "ルビーの指輪" read as Shift_JIS is "ルビーの", "指輪" |
| ShiftJisExamples.ToWordHiraonbikiCase | testcharstring.rb:520-526 | to_word of "わールビーだ" read as Shift_JIS is "わー", "ルビーだ" |
| ShiftJisExamples.ToWordLatinmixCase | testcharstring.rb:527-533 | to_word of "日本語とLatinの文字" read as Shift_JIS is "日本語と", "Latin", "の", "文字" |
| ShiftJisExamples.ToCharCase | testcharstring.rb:534-541 | to_char of "表計算a b" read as Shift_JIS with LF is "表", "計", "算", "a", " ", "b" |
| ShiftJisExamples.ToCharWithCrCase | testcharstring.rb:542-549 | to_char of "表計算a b\r" read as Shift_JIS with CR is "表", "計", "算", "a", " ", "b", "\r" |
| ShiftJisExamples.ToCharWithLfCase | testcharstring.rb:550-557 | to_char of "表計算a b\n" read as Shift_JIS with LF is "表", "計", "算", "a", " ", "b", "\n" |
| ShiftJisExamples.ToCharWithCrlfCase | testcharstring.rb:558-565 | to_char of "表計算a b\r\n" read as Shift_JIS with CRLF is "表", "計", "算", "a", " ", "b", "\r\n" |
| ShiftJisExamples.CountCharCase | testcharstring.rb:566-573 | count_char of "日本語a b\r\n" read as Shift_JIS with CRLF is 7 |
| ShiftJisExamples.CountLatinGraphCharCase | testcharstring.rb:574-581 | count_latin_graph_char of "日本語a b\r\n" read as Shift_JIS with CRLF is 2 |
| ShiftJisExamples.CountJaGraphCharCase | testcharstring.rb:582-589 | count_ja_graph_char of "日本語a b\r\n" read as Shift_JIS with CRLF is 3 |
| ShiftJisExamples.CountGraphCharCase | testcharstring.rb:590-597 | count_graph_char of "日本語a b\r\n" read as Shift_JIS with CRLF is 5 |
| ShiftJisExamples.CountLatinBlankCharCase | testcharstring.rb:598-605 | count_latin_blank_char of "日本語\ta b\r\n" read as Shift_JIS with CRLF is 2 |
| ShiftJisExamples.CountJaBlankCharCase | testcharstring.rb:606-613 | count_ja_blank_char of "日本　語\ta b\r\n" read as Shift_JIS with CRLF is 1 |
| ShiftJisExamples.CountBlankCharCase | testcharstring.rb:614-621 | count_blank_char of "日本　語\ta b\r\n" read as Shift_JIS with CRLF is 3 |
| ShiftJisExamples.CountWordCase | testcharstring.rb:622-629 | count_word of "日本　語a b --\r\n" read as Shift_JIS is 7 |
| ShiftJisExamples.CountJaWordCase | testcharstring.rb:630-637 | count_ja_word of "日本　語a b --\r\n" read as Shift_JIS is 3 |
| ShiftJisExamples.CountLatinValidWordCase | testcharstring.rb:638-645 | count_latin_valid_word of "日本　語a b --\r\n" read as Shift_JIS is 2 |
| ShiftJisExamples.CountJaValidWordCase | testcharstring.rb:646-653 | count_ja_valid_word of "日本　語a b --\r\n" read as Shift_JIS is 2 |
| ShiftJisExamples.CountValidWordCase | testcharstring.rb:654-661 | count_valid_word of "日本　語a b --\r\n" read as Shift_JIS is 4 |
| ShiftJisExamples.CountLineCase | testcharstring.rb:662-669 | count_line of "日本語\r\n　\r\n \r\n\r\nfoo\r\nbar" read as Shift_JIS with CRLF is 6 |
| ShiftJisExamples.CountGraphLineCase | testcharstring.rb:670-677 | count_graph_line of "日本語\r\n　\r\n \r\n\r\nfoo\r\nbar" read as Shift_JIS with CRLF is 3 |
| ShiftJisExamples.CountEmptyLineCase | testcharstring.rb:678-685 | count_empty_line of "日本語\r\n　\r\n \r\n\r\nfoo\r\nbar" read as Shift_JIS with CRLF is 1 |
| ShiftJisExamples.CountBlankLineCase | testcharstring.rb:686-693 | count_blank_line of "日本語\r\n　\r\n \r\n\r\nfoo\r\nbar" read as Shift_JIS with CRLF is 2 |
| Utf8Examples.ToWordCase | testcharstring.rb:696-702 | to_word of "日本語の文字foo bar" read as UTF-8 is "日本語の", "文字", "foo ", "bar" |
| Utf8Examples.ToWordKanhiraCase | testcharstring.rb:703-709 | to_word of "日本語の文字" read as UTF-8 is "日本語の", "文字" |
| Utf8Examples.ToWordKatahiraCase | testcharstring.rb:710-716 | to_word of "カタカナの文字" read as UTF-8 is "カタカナの", "文字" |
| Utf8Examples.ToWordKataonbikiCase | testcharstring.rb:717-723 | to_word of "ルビーの指輪" read as UTF-8 is "ルビーの", "指輪" |
| Utf8Examples.ToWordHiraonbikiCase | testcharstring.rb:724-730 | to_word of "わールビーだ" read as UTF-8 is "わー", "ルビーだ" |
| Utf8Examples.ToWordLatinmixCase | testcharstring.rb:731-737 | to_word of "日本語とLatinの文字" read as UTF-8 is "日本語と", "Latin", "の", "文字" |
| Utf8Examples.ToCharCase | testcharstring.rb:738-745 | to_char of "日本語a b" read as UTF-8 with LF is "日", "本", "語", "a", " ", "b" |
| Utf8Examples.ToCharWithCrCase | testcharstring.rb:746-753 | to_char of "日本語a b\r" read as UTF-8 with CR is "日", "本", "語", "a", " ", "b", "\r" |
| Utf8Examples.ToCharWithLfCase | testcharstring.rb:754-761 | to_char of "日本語a b\n" read as UTF-8 with LF is "日", "本", "語", "a", " ", "b", "\n" |
| Utf8Examples.ToCharWithCrlfCase | testcharstring.rb:762-769 | to_char of "日本語a b\r\n" read as UTF-8 with CRLF is "日", "本", "語", "a", " ", "b", "\r\n" |
| Utf8Examples.CountCharCase | testcharstring.rb:770-777 | count_char of "日本語a b\r\n" read as UTF-8 with CRLF is 7 |
| Utf8Examples.CountLatinGraphCharCase | testcharstring.rb:778-785 | count_latin_graph_char of "日本語a b\r\n" read as UTF-8 with CRLF is 2 |
| Utf8Examples.CountJaGraphCharCase | testcharstring.rb:786-793 | count_ja_graph_char of "日本語a b\r\n" read as UTF-8 with CRLF is 3 |
| Utf8Examples.CountGraphCharCase | testcharstring.rb:794-801 | count_graph_char of "日本語a b\r\n" read as UTF-8 with CRLF is 5 |
| Utf8Examples.CountLatinBlankCharCase | testcharstring.rb:802-809 | count_latin_blank_char of "日本語\ta b\r\n" read as UTF-8 with CRLF is 2 |
| Utf8Examples.CountJaBlankCharCase | testcharstring.rb:810-817 | count_ja_blank_char of "日本　語\ta b\r\n" read as UTF-8 with CRLF is 1 |
| Utf8Examples.CountBlankCharCase | testcharstring.rb:818-825 | count_blank_char of "日本　語\ta b\r\n" read as UTF-8 with CRLF is 3 |
| Utf8Examples.CountWordCase | testcharstring.rb:826-833 | count_word of "日本　語a b --\r\n" read as UTF-8 is 7 |
| Utf8Examples.CountJaWordCase | testcharstring.rb:834-841 | count_ja_word of "日本　語a b --\r\n" read as UTF-8 is 3 |
| Utf8Examples.CountLatinValidWordCase | testcharstring.rb:842-849 | count_latin_valid_word of "日本　語a b --\r\n" read as UTF-8 is 2 |
| Utf8Examples.CountJaValidWordCase | testcharstring.rb:850-857 | count_ja_valid_word of "日本　語a b --\r\n" read as UTF-8 is 2 |
| Utf8Examples.CountValidWordCase | testcharstring.rb:858-865 | count_valid_word of "日本　語a b --\r\n" read as UTF-8 is 4 |
| Utf8Examples.CountLineCase | testcharstring.rb:866-873 | count_line of "日本語\r\n　\r\n \r\n\r\nfoo\r\nbar" read as UTF-8 with CRLF is 6 |
| Utf8Examples.CountGraphLineCase | testcharstring.rb:874-881 | count_graph_line of "日本語\r\n　\r\n \r\n\r\nfoo\r\nbar" read as UTF-8 with CRLF is 3 |
| Utf8Examples.CountEmptyLineCase | testcharstring.rb:882-889 | count_empty_line of "日本語\r\n　\r\n \r\n\r\nfoo\r\nbar" read as UTF-8 with CRLF is 1 |
| Utf8Examples.CountBlankLineCase | testcharstring.rb:890-897 | count_blank_line of "日本語\r\n　\r\n \r\n\r\nfoo\r\nbar" read as UTF-8 with CRLF is 2 |
| DetectorExamples.GuessEolNilCase | testcharstring.rb:963-967 | guess_eol of nil is nil |
| DetectorExamples.GuessEolEmptyCase | testcharstring.rb:968-972 | guess_eol of "" is NONE |
| DetectorExamples.GuessEolNoneCase | testcharstring.rb:973-977 | guess_eol of "foo bar" is NONE |
| DetectorExamples.GuessEolCrCase | testcharstring.rb:978-982 | guess_eol of "foo bar\r" is CR |
| DetectorExamples.GuessEolLfCase | testcharstring.rb:983-987 | guess_eol of "foo bar\n" is LF |
| DetectorExamples.GuessEolCrlfCase | testcharstring.rb:988-992 | guess_eol of "foo bar\r\n" is CRLF |
| DetectorExamples.GuessEolMixedCase | testcharstring.rb:993-997 | guess_eol of "foo\rbar\nbaz\r\n" is UNKNOWN |
| DetectorExamples.GuessEolAutoCrCase | testcharstring.rb:998-1003 | the eol tag of a fresh string "foo\rbar\rbaz\r" reads CR |
| DetectorExamples.GuessEolAutoLfCase | testcharstring.rb:1004-1009 | the eol tag of a fresh string "foo\nbar\nbaz\n" reads LF |
| DetectorExamples.GuessEolAutoCrlfCase | testcharstring.rb:1010-1015 | the eol tag of a fresh string "foo\r\nbar\r\nbaz\r\n" reads CRLF |
| DetectorExamples.GuessCodesetNilCase | testcharstring.rb:925-929 | guess_codeset of nil is nil |
| DetectorExamples.GuessCodesetAsciiCase | testcharstring.rb:900-904 | guess_codeset of "ASCII string" in ASCII is ASCII |
| DetectorExamples.GuessCodesetEucjpCase | testcharstring.rb:905-909 | guess_codeset of "日本語とLatinの文字" in EUC-JP is EUC-JP |
| DetectorExamples.GuessCodesetJisCase | testcharstring.rb:910-914 | guess_codeset of "日本語とLatinの文字" in JIS is JIS |
| DetectorExamples.GuessCodesetSjisCase | testcharstring.rb:915-919 | guess_codeset of "日本語とLatinの文字" in Shift_JIS is Shift_JIS |
| DetectorExamples.GuessCodesetUtf8Case | testcharstring.rb:920-924 | guess_codeset of "日本語とLatinの文字" in UTF-8 is UTF-8 |
| DetectorExamples.GuessCodesetUnknownCase | testcharstring.rb:935-939 | guess_codeset of four 0xFF bytes is UNKNOWN |
| DetectorExamples.GuessCodesetAutoAsciiCase | testcharstring.rb:940-944 | the codeset tag of a fresh string "abc\ndef\n" in ASCII reads ASCII |
| DetectorExamples.GuessCodesetAutoEucjpCase | testcharstring.rb:945-950 | the codeset tag of a fresh string "漢字とカタカナとひらがな\n" in EUC-JP reads EUC-JP |
| DetectorExamples.GuessCodesetAutoSjisCase | testcharstring.rb:951-956 | the codeset tag of a fresh string "いろは\nにほへと\n" in Shift_JIS reads Shift_JIS |
| DetectorExamples.GuessCodesetAutoUtf8Case | testcharstring.rb:957-962 | the codeset tag of a fresh string "いろは\nにほへと\n" in UTF-8 reads UTF-8 |
| DetectorExamples.CodesetAsciiCase | testcharstring.rb:14-19 | the codeset tag of "foo" set to ASCII reads ASCII |
| DetectorExamples.CodesetEucjpCase | testcharstring.rb:20-25 | the codeset tag of "foo" set to EUC-JP reads EUC-JP |
| DetectorExamples.CodesetSjisCase | testcharstring.rb:26-31 | the codeset tag of "foo" set to Shift_JIS reads Shift_JIS |
| DetectorExamples.CodesetUtf8Case | testcharstring.rb:32-37 | the codeset tag of "foo" set to UTF-8 reads UTF-8 |
| DetectorExamples.EolCrCase | testcharstring.rb:40-45 | the eol tag of "foo" set to CR reads CR |
| DetectorExamples.EolLfCase | testcharstring.rb:46-51 | the eol tag of "foo" set to LF reads LF |
| DetectorExamples.EolCrlfCase | testcharstring.rb:52-57 | the eol tag of "foo" set to CRLF reads CRLF |

## Left out

- Transcoding with NKF and Uconv (testcharstring.rb:4-5): the tests use these foreign libraries only to build their fixtures. The model takes texts that are already in the target encoding, written out as bytes.
- The name-to-module registries `CodeSets` and `EOLChars` and Ruby's runtime `extend` (testcharstring.rb:14-57): the tags are datatypes, so there is no name to look up.
- The heuristics that tell EUC-JP from Shift_JIS, and the JIS detector, beyond what the tests show. `guess_codeset` tries the candidates in a fixed order (JIS escape, seven-bit, UTF-8, EUC-JP, Shift_JIS) and takes the first codeset the text is valid in.
- Full kanji, kana and full-width tables: the script classes are coarse ranges that cover the test texts.
- The commented-out BINARY test (testcharstring.rb:930-934) and the empty `setup`/`teardown` (testcharstring.rb:9-11, 1017-1019).
- Thread safety of the lazily filled tags: that is concurrency, not behaviour.
- `EncodingTable.WellFormedChar` and `EncodingTable.Width` apply only the UTF-8 lead-byte pattern rule. They do not reject what section 3 of RFC 3629 also forbids: the leads 0xC0, 0xC1 and 0xF5-0xF7, overlong forms, the surrogates (0xED followed by 0xA0-0xBF) and code points above U+10FFFF. No test depends on these.
- `guess_codeset` on JIS text is only checked for its escape: JIS text is not split into characters, so there is no JIS character table.
