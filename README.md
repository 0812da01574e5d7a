# e-mail.wtf in Dafny

This project models the browser-side logic of e-mail.wtf in Dafny. It has two pages:

- a quiz that shows fifteen e-mail addresses one at a time and asks whether each is valid;
- a validator that runs an address parser on what the user types and draws the parse as a small tree of boxes.

Both pages build their markup with a small element builder.

The model has five modules:

- `JsString` (js.dfy) models the JavaScript built-ins the pages rely on:
  - string truthiness and `startsWith`;
  - `split` on a one-character separator, and `join`;
  - `parseInt` without a radix;
  - `toString` on naturals;
  - the `<`/`<=` comparison of strings.
- `Dom` and `DomProperties` (dom.dfy) model the element builder of src/dom.ts.
  - `HtmlElement` is a class whose fields are the element's observable state: tag, assigned properties, class list, attributes, inline style and children.
  - `createElement` is a method over such an object, proved equal to the function `Build`.
  - `element(tag)` is `Invoke`, proved equal to `Invocation`, which chooses between the three call shapes.
  - `DomProperties` proves what the builder promises: which properties, classes, `data-*` attributes, styles and children the new element ends up with.
- `Theme` (theme.dfy) models the light/dark theme code. src/index.ts and src/validator.ts carry it line for line the same, so it is modelled once.
- `Quiz` (quiz.dfy) models the quiz controller of src/index.ts.
  - Every handler is a transition function on a `State` record. The record holds the four module-level variables, the marks on the rendered question, which screens show, the `q`/`a` query string and the results texts.
  - The class `QuizPage` carries the same fields. Each of its methods is proved to perform the corresponding transition.
  - The lemmas prove:
    - that a `q`/`a` position round-trips through the URL;
    - how the score moves;
    - which message each percentage earns;
    - that every session of events keeps the page consistent. Consistent means the score never exceeds the number of questions, and the results screen shows the right counts and message.
- `Validator` (validator.dfy) models the validator page of src/validator.ts. It covers:
  - the entity decoding of `loadExample`, proved to undo the page's escaping;
  - the outline `createASTVisualization` draws, as a method with a loop proved equal to `Outline`;
  - the report `parseEmail` writes for each parser outcome: a result, no result, or an exception.

Browser state that the source reads through the document (local storage, the query string, the `hidden` class of the screens) is held in fields and record components. Calls into the environment are parameters:

- the system colour-scheme preference;
- the set of property names an element has;
- the address parser.

## Model

| member | source | states |
|---|---|---|
| JsString.Split | src/dom.ts:67 | `split(".")` gives at least one piece, and no piece contains the separator |
| JsString.JoinSplit | src/dom.ts:67 | joining the pieces of a split with the separator gives back the string |
| JsString.SplitJoin | src/dom.ts:67 | splitting the join of separator-free pieces gives back the pieces, so split is a bijection onto non-empty lists of such pieces |
| JsString.TrimStart | src/index.ts:108-109 | `parseInt` skips exactly the leading white space: what is skipped is white space, and what remains does not start with it |
| JsString.DigitPrefix | src/index.ts:108-109 | `parseInt` reads the longest run of digits of the radix at the start of the text |
| JsString.ParseInt | src/index.ts:108-109 | `parseInt` of empty or all-white-space text is NaN; what it reads from digits is stated by `ParseIntNatToString` and `Quiz.ParseLeadingDigits` |
| JsString.Less | src/index.ts:371 | string `<` compared character by character, a proper prefix being smaller, which is how JavaScript orders the keys compared with "1" and "2"; its order properties are `LessStrictTotal` |
| JsString.LessStrictTotal | src/index.ts:371 | string `<` is irreflexive, never holds both ways, and relates any two distinct strings one way or the other |
| JsString.LessTransitive | src/index.ts:371 | string `<` is transitive, so with `LessStrictTotal` it is a strict total order |
| JsString.LessOrEqual | src/index.ts:371 | `a <= b` as JavaScript defines it on strings, `!(b < a)`; the keys it accepts are stated by `Quiz.OptionKeys` |
| JsString.NatToString | src/index.ts:115 | `toString` of a natural is a non-empty run of decimal digits, with a leading zero only for 0, and one digit exactly below 10 |
| JsString.ParseIntNatToString | src/index.ts:108-115 | `parseInt` reads back exactly the number `toString` wrote |
| Dom.Lookup | src/dom.ts:40 | reading a key of an options object finds a value exactly when the key is present, and the value is that key's |
| Dom.AddClassesSpec | src/dom.ts:30-36 | `classList.add` keeps the old list as a prefix, holds exactly the old classes and the tokens, and never duplicates a class |
| Dom.AddFreshClasses | src/dom.ts:30-36 | adding distinct tokens that are not yet in the list appends them in order |
| Dom.ClassesToAdd | src/dom.ts:30-36 | the names `if (classes)` hands to `classList.add`: none without the option, an empty name only from an array, and only names the option gave |
| Dom.AddClasses | src/dom.ts:30-36 | `classList.add(...tokens)`: each token not yet present is appended; its contract is `AddClassesSpec` |
| Dom.ClassTokens | src/dom.ts:27 | the class list a `className` string sets has no duplicates, holds exactly its non-empty white-space-separated pieces, and none of them holds white space |
| Dom.Assign | src/dom.ts:27 | `elem[key] = value` never changes the tag, the attributes or the children |
| Dom.Build | src/dom.ts:17-48 | the element `createElement` returns has the requested tag; its content is stated by the `DomProperties.Build*` lemmas |
| Dom.Invocation | src/dom.ts:60-81 | the element `element(tag)(...args)` returns has the tag; the three call shapes are stated by the `DomProperties.*Invocation` lemmas |
| Dom.ApplyProps | src/dom.ts:21-29 | the property loop leaves the tag, the attributes and the children unchanged |
| Dom.ApplyData | src/dom.ts:37-39 | the data loop changes nothing but the attributes |
| Dom.ApplyStyles | src/dom.ts:40-42 | the style loop changes nothing but the inline style |
| Dom.AppendChildren | src/dom.ts:43-47 | the child loop changes nothing but the children |
| Dom.HtmlElement.constructor | src/dom.ts:20 | `document.createElement(tag)` gives an element of the tag with nothing set |
| Dom.HtmlElement.SetProperty | src/dom.ts:27 | `elem[key] = value`: a `className` string replaces the class list, a `style` write empties the inline style, and any other key is stored |
| Dom.HtmlElement.AddToClassList | src/dom.ts:30-36 | `classList.add` adds the tokens that are missing, in order, and changes nothing else |
| Dom.HtmlElement.SetAttribute | src/dom.ts:38 | `setAttribute` sets one attribute and changes nothing else |
| Dom.HtmlElement.SetStyle | src/dom.ts:41 | `elem.style[key] = value` sets one declaration and changes nothing else |
| Dom.HtmlElement.AppendChild | src/dom.ts:44-46 | `appendChild` adds the node at the end of the children |
| Dom.AssignProperties | src/dom.ts:21-29 | the property loop over the element performs `ApplyProps` |
| Dom.SetDataAttributes | src/dom.ts:37-39 | the data loop over the element performs `ApplyData` |
| Dom.SetStyles | src/dom.ts:40-42 | the style loop over the element performs `ApplyStyles` |
| Dom.AppendAll | src/dom.ts:43-47 | the child loop over the element performs `AppendChildren`, a string becoming a text node |
| Dom.CreateElement | src/dom.ts:12-49 | `createElement` returns a new element whose state is `Build` of its arguments |
| Dom.Dispatch | src/dom.ts:64-78 | whatever shape the call has, what is passed on as children are only strings and nodes |
| Dom.Invoke | src/dom.ts:60-81 | the function `element(tag)` returns makes a new element whose state is `Invocation` of its arguments |
| DomProperties.ApplyPropsAt | src/dom.ts:21-29 | a plain key ends up assigned exactly when it was already there or it is one the element has with a defined value, and it then holds that value; otherwise it keeps its old value |
| DomProperties.ApplyPropsClasses | src/dom.ts:21-29 | an assigned `className` string replaces the class list by its tokens, and without one the list is kept |
| DomProperties.ApplyPropsStyle | src/dom.ts:21-29 | an assigned `style` object empties the inline style, and without one the style is kept |
| DomProperties.DataNameInjective | src/dom.ts:38 | distinct data keys give distinct `data-*` attribute names |
| DomProperties.ApplyDataSpec | src/dom.ts:37-39 | every data entry becomes the attribute `data-<key>` with its value, and no other attribute is added |
| DomProperties.ApplyStylesSpec | src/dom.ts:40-42 | every style entry becomes a declaration with its value, and no other declaration is added |
| DomProperties.AppendChildrenSpec | src/dom.ts:43-47 | the children are the old ones followed by the arguments, in order |
| DomProperties.BuildProperties | src/dom.ts:17-29 | the new element has the tag, and a plain property exactly when the element has the key and the value is defined, with that value |
| DomProperties.BuildClasses | src/dom.ts:17-36 | the class list starts with the tokens of an assigned `className`, then holds exactly those and the `class` option's names, each once |
| DomProperties.BuildData | src/dom.ts:37-39 | the attributes are exactly `data-<key>` for each data entry, with its value |
| DomProperties.BuildStyle | src/dom.ts:40-42 | the inline style is exactly the `style` option's declarations |
| DomProperties.BuildChildren | src/dom.ts:43-47 | the children are the arguments in order, each string as a text node of that text |
| DomProperties.BuildClassArray | src/dom.ts:30-36 | an options object holding only an array of classes builds an element with just those classes, each once |
| DomProperties.ShorthandInvocation | src/dom.ts:64-68 | a ".a.b" first argument builds an element whose classes are exactly the dot-separated names, each once and in order when they are distinct, with the other arguments as children and nothing else set |
| DomProperties.ChildrenOnlyInvocation | src/dom.ts:64-78 | with no arguments, or a node or a string not starting with "." first, every argument is a child and nothing else is set |
| DomProperties.OptionsInvocation | src/dom.ts:73-75 | an options object first is passed to `createElement` with the rest as children |
| DomProperties.OptionDivExample | src/dom.ts:30-39 | one class name and one data entry build an element with that class, that `data-` attribute and that text child |
| DomProperties.ShorthandDivExample | src/dom.ts:64-68 | ".option.selected" builds an element with the classes "option" and "selected" |
| DomProperties.TwoCallsTwoElements | src/dom.ts:60-81 | two calls with the same arguments give two distinct new elements with the same state, so the builder keeps no state between calls |
| Theme.GetTheme | src/index.ts:11-25 | the theme chosen is never empty |
| Theme.GetThemeChoice | src/index.ts:11-25 | a saved theme decides; without one the theme is "light" exactly when the system prefers light, otherwise "dark" |
| Theme.Toggled | src/index.ts:33-34 | the toggled theme is "light" or "dark" and differs from the current one |
| Theme.ToggledFlips | src/index.ts:32-36 | toggling lands on "light" or "dark" and always changes the theme; toggling twice gives it back exactly for "light" and "dark" |
| Theme.ThemeSettings.constructor | src/index.ts:12 | a page starts with the stored preference and no theme shown |
| Theme.ThemeSettings.SetTheme | src/index.ts:27-30 | the theme is both shown and saved |
| Theme.ThemeSettings.ToggleTheme | src/index.ts:32-36 | the toggled theme differs from the current one and is both shown and saved, so it wins over the system preference from then on |
| Theme.ThemeSettings.Load | src/index.ts:342 | on load the chosen theme is shown and saved |
| Theme.ThemeSettings.SystemSchemeChanged | src/index.ts:344-351 | a system scheme change is followed only while no theme is saved |
| Theme.LoadThenSchemeChange | src/index.ts:341-351 | after page load a system scheme change never changes the theme |
| Quiz.ReadPosition | src/index.ts:105-109 | a position is read exactly when the parameter is present and non-empty |
| Quiz.WritePosition | src/index.ts:115 | the written 1-based position is a non-empty digit string that never starts with 0 |
| Quiz.PositionRoundTrip | src/index.ts:103-122 | the 1-based position `updateUrl` writes is read back by `getUrlParams` as the same 0-based index |
| Quiz.OptionAnswer | src/index.ts:212-213 | an index names an answer exactly when it is 0 or 1 |
| Quiz.CorrectIndex | src/index.ts:215 | the correct index is 0 or 1 |
| Quiz.CorrectIndexSpec | src/index.ts:212-215 | the correct index is the one option whose answer matches the question's |
| Quiz.Percentage | src/index.ts:264 | the percentage is finite exactly when there are questions, and never negative |
| Quiz.Rate | src/index.ts:267-278 | the message chosen from the percentage by the thresholds 100, 80, 60 and 40; its bands are stated by `MessageBuckets` |
| Quiz.ShareText | src/index.ts:285 | the share text, quoting the score and the question count |
| Quiz.MessageText | src/index.ts:267-278 | the five message texts, one per rating; which rating is shown is stated by `MessageBuckets` |
| Quiz.ResultsFor | src/index.ts:258-289 | the texts `showResults` writes: both counts, the rating with its message text, and the share text |
| Quiz.PercentageRounds | src/index.ts:264 | the percentage is 100·score/total rounded to the nearest integer, halves up |
| Quiz.PercentageBounds | src/index.ts:264 | with at most as many points as questions, the percentage is between 0 and 100 |
| Quiz.PerfectIffAllRight | src/index.ts:264-268 | the perfect message is shown exactly when every answer was right |
| Quiz.MessageMonotone | src/index.ts:264-278 | a higher score never earns a worse message |
| Quiz.MessageBuckets | src/index.ts:267-278 | each message is chosen by its band of percentages: 100, 80 to 99, 60 to 79, 40 to 59, below 40 |
| Quiz.FifteenQuestionMessages | src/index.ts:264-278 | with fifteen questions, 15 points is perfect, 12 to 14 excellent, 9 to 11 good, 6 to 8 not bad, 5 or fewer surprising |
| Quiz.IsOptionKey | src/index.ts:371 | `e.key >= "1" && e.key <= "2"` on strings; the keys it admits are stated by `OptionKeys` |
| Quiz.OptionKeys | src/index.ts:371 | the string comparison `"1" <= key <= "2"` accepts exactly the keys starting with '1' and the key "2" |
| Quiz.ParseLeadingDigits | src/index.ts:372 | `parseInt` of text starting with a digit 1 to 9 is the value of its leading digits |
| Quiz.OptionKeyParses | src/index.ts:371-372 | every accepted key parses to a number of at least 1, "1" to 1 and "2" to 2 |
| Quiz.KeyOption | src/index.ts:372 | an accepted key selects a non-negative option: "1" the first, "2" the second |
| Quiz.AfterUpdateUrl | src/index.ts:113-128 | only the query string changes, and while the question is unanswered the `a` parameter is dropped |
| Quiz.AfterShowQuestion | src/index.ts:157-197 | the questions, the index, the score, the screens and the results texts are untouched |
| Quiz.ShowQuestionSpec | src/index.ts:157-197 | with a current question, it is rendered unmarked and unanswered, and its position and no answer go to the URL; without one nothing changes |
| Quiz.AfterSelect | src/index.ts:199-243 | a selection leaves the question answered, keeps the questions, the index and the screens, and adds at most one point |
| Quiz.AfterShowResults | src/index.ts:254-292 | the results screen shows instead of the quiz; the questions, the index, the score and `answered` are kept |
| Quiz.AfterNext | src/index.ts:245-252 | next advances the index by one and keeps the score and the questions |
| Quiz.AfterStart | src/index.ts:134-155 | starting loads the bank, shows the quiz instead of the start screen, and never lowers the score |
| Quiz.AfterLoad | src/index.ts:353-364 | the start screen stays shown exactly when the URL has no `q` parameter; with one the quiz starts on the bank |
| Quiz.AfterKey | src/index.ts:368-378 | a key does nothing unless the quiz screen shows, and never changes the questions; its dispatch is stated by `KeyDispatch` |
| Quiz.KeyDispatch | src/index.ts:370-376 | on the quiz screen, "1" and "2" select the first and the second option while unanswered, Enter and space go to the next question once answered, and each does nothing in the other case |
| Quiz.AfterEvent | src/index.ts:333-378 | an event keeps the questions or loads the bank |
| Quiz.SelectAnswersOnce | src/index.ts:199-204 | a selection always leaves the question answered; once answered, further selections change nothing; without a current question only `answered` changes |
| Quiz.Marked | src/index.ts:206-230 | the marks a selection leaves: the correct option is always marked, the verdict is right exactly for the correct index, a rendered option is marked selected, a wrong mark never falls on the correct option, and the next button shows |
| Quiz.SelectScores | src/index.ts:199-243 | a selection scores one point exactly when it is the correct option; it marks the correct option, the selection and a wrong selection, shows the verdict and the next button, and writes both positions to the URL |
| Quiz.NextShowsResultsAtEnd | src/index.ts:245-292 | next advances the index and keeps the score; past the last question it shows the results with the right counts and message and clears the URL; otherwise it shows the next question unanswered |
| Quiz.StartSpec | src/index.ts:134-155 | starting loads the questions, swaps the start screen for the quiz, adopts an in-range `q` position, and answers exactly when `a` names option 1 or 2 |
| Quiz.RestartKeepsProgress | src/index.ts:134-155 | starting again past the last question keeps the index and the score and shows the quiz with no current question, which is not a consistent page |
| Quiz.ReloadResumes | src/index.ts:103-155 | reloading the URL written after answering a question resumes on that question, answered with the same marks |
| Quiz.StartConsistent | src/index.ts:134-155 | starting from the start screen keeps the page consistent |
| Quiz.NextConsistent | src/index.ts:245-292 | advancing from the quiz screen keeps the page consistent |
| Quiz.EventConsistent | src/index.ts:333-378 | every click and key press keeps the page consistent |
| Quiz.EventsConsistent | src/index.ts:333-378 | every sequence of clicks and key presses keeps the page consistent |
| Quiz.SessionScoreBounded | src/index.ts:341-378 | in any session the score is at most the number of questions, and the results screen shows the score, the count and the message for a percentage between 0 and 100 |
| Quiz.QuestionsFromBank | src/index.ts:130-132 | the questions shown are always those of the question bank, or none before the quiz starts |
| Quiz.FifteenQuestionSession | src/index.ts:254-278 | with fifteen questions the score is at most 15, and the results show 15 questions and the perfect message exactly for 15 points |
| Quiz.ValidQuestion | src/index.ts:42-44 | `valid(email, explanation)` builds a question with that address and explanation whose answer is "valid" |
| Quiz.InvalidQuestion | src/index.ts:46-48 | `invalid(email, explanation)` builds a question with that address and explanation whose answer is "invalid" |
| Quiz.ShippedQuestionCount | src/index.ts:51-94 | the quiz ships fifteen questions |
| Quiz.Initial | src/index.ts:96-100 | the module-level values: no questions, index 0, score 0, unanswered, with every screen hidden and the URL the page was opened with; the page object starts from it (`QuizPage.constructor`) |
| Quiz.QuizPage.constructor | src/index.ts:96-100 | the page starts with no questions, index 0, score 0, unanswered, every screen hidden and the URL it was opened with |
| Quiz.QuizPage.UpdateUrl | src/index.ts:113-128 | `updateUrl` performs `AfterUpdateUrl` |
| Quiz.QuizPage.InitializeQuiz | src/index.ts:130-132 | `initializeQuiz` loads the question bank and changes nothing else |
| Quiz.QuizPage.ShowQuestion | src/index.ts:157-197 | `showQuestion` performs `AfterShowQuestion` |
| Quiz.QuizPage.SelectOption | src/index.ts:199-243 | `selectOption` performs `AfterSelect` |
| Quiz.QuizPage.ShowResults | src/index.ts:254-292 | `showResults` performs `AfterShowResults` |
| Quiz.QuizPage.NextQuestion | src/index.ts:245-252 | `nextQuestion` performs `AfterNext` |
| Quiz.QuizPage.StartQuiz | src/index.ts:134-155 | `startQuiz` performs `AfterStart` on the shipped questions |
| Quiz.QuizPage.PageLoaded | src/index.ts:353-364 | the page-load handler performs `AfterLoad` |
| Quiz.QuizPage.KeyDown | src/index.ts:368-378 | the keydown handler performs `AfterKey` |
| Validator.ReplaceAll | src/validator.ts:211-213 | a global replace by a text no longer than the pattern never lengthens the text, and one by a text as long keeps its length |
| Validator.Decode | src/validator.ts:210-213 | decoding never lengthens the text |
| Validator.ReplaceAllAbsent | src/validator.ts:210-213 | a global replace of a pattern whose first character does not occur changes nothing |
| Validator.DecodeWithoutAmpersand | src/validator.ts:210-213 | decoding leaves text without '&' unchanged |
| Validator.Entity | src/validator.ts:210-213 | each entity starts with '&', has no other '&' and is at least four characters long |
| Validator.EntityTexts | src/validator.ts:211-213 | the three entities are `&quot;`, `&lt;` and `&gt;` |
| Validator.Escape | src/validator.ts:210-213 | escaping no characters leaves the text unchanged |
| Validator.ReplaceAllSkips | src/validator.ts:211 | a global replace keeps a prefix in which no match can start |
| Validator.SkipOtherEntity | src/validator.ts:211-213 | replacing one entity keeps each other entity intact |
| Validator.DecodeStage | src/validator.ts:211-213 | each replace step undoes exactly the escaping of its own character |
| Validator.DecodeEscape | src/validator.ts:208-213 | decoding text escaped with `&quot;`, `&lt;` and `&gt;` gives back the text, when it had no '&' |
| Validator.Capitalize | src/validator.ts:196 | the label has the same length as the key, with the first character upper-cased |
| Validator.ExtraLabels | src/validator.ts:189-197 | the extra boxes are labelled "Type" and "Format" |
| Validator.CreateAstVisualization | src/validator.ts:145-206 | the outline drawn is `Outline` of the result: the address box, holding the boxes of the present fields in order |
| Validator.AstChildrenLabels | src/validator.ts:156-202 | the inner boxes are, in order, Display Name, Local Part, Domain, Type and Format, each exactly when its field is present and non-empty |
| Validator.AstChildrenValues | src/validator.ts:158-202 | each inner box shows its field's value, the display name in double quotes |
| Validator.RootShowsAddress | src/validator.ts:150-154 | the outer box is labelled "Email Address" and shows the address, or "N/A" without one |
| Validator.RootNode | src/validator.ts:150-154 | the address box; its contract is `RootShowsAddress` |
| Validator.NameNode | src/validator.ts:159-166 | the display-name box, present for a non-empty name; stated by `AstChildrenLabels` and `AstChildrenValues` |
| Validator.PartNode | src/validator.ts:169-186 | the local-part and domain boxes, present for a non-empty part; stated by `AstChildrenLabels` and `AstChildrenValues` |
| Validator.ExtraNode | src/validator.ts:189-202 | the box of an extra property, labelled by its capitalised key; stated by `AstChildrenLabels` and `AstChildrenValues` |
| Validator.Outline | src/validator.ts:145-206 | the outline of a parse: the address box around the inner boxes that are present; stated by `RootShowsAddress`, `AstChildrenLabels` and `AstChildrenValues` |
| Validator.ReportFor | src/validator.ts:101-141 | the report for each parser outcome; stated by `StatusValidIff` |
| Validator.StatusValidIff | src/validator.ts:101-141 | the status is valid exactly when the parser returned a result; an outline is drawn exactly then; an exception's message is shown in an "Exception" box |
| Validator.Status | src/validator.ts:104-115 | the status indicator's class list, "status-valid" or "status-invalid" after the common class; the two differ (`StatusesDiffer`) |
| Validator.StatusesDiffer | src/validator.ts:104-115 | the valid and the invalid status differ |
| Validator.ValidatorPage.constructor | src/validator.ts:78-81 | the page starts with the input and the three options, and the results hidden |
| Validator.ValidatorPage.ParseEmail | src/validator.ts:68-143 | `parseEmail` passes the input and options to the parser, shows the results section, writes the report for the outcome and changes no input |
| Validator.ValidatorPage.LoadExample | src/validator.ts:208-221 | `loadExample` puts the decoded example in the input, keeps the three options, and parses it with them |

## Left out

- JsString.Less compares characters as Unicode scalar values, while JavaScript compares UTF-16 code units. The two orders differ only between a character above U+FFFF and one from U+E000 to U+FFFF; comparing any key with "1" or "2", as the page does, they agree.
- Browser APIs are outside the model, held instead as fields, record components or parameters:
  - element lookups by id and `innerHTML`;
  - `localStorage` and `matchMedia`;
  - `URLSearchParams`, `URL` and `history.replaceState`;
  - the clipboard, `navigator.share` and the toast.
- `copyShareMessage`, `shareResults` and `showToast` (src/index.ts:294-331) are not modelled. They only hand the share text to the clipboard or the share sheet. The share text itself is modelled as the `share` text of the results screen (`ResultsFor`).
- Registering event listeners is not modelled. The quiz handlers are applied to a sequence of `Event`s instead.
- The validator's `input` and `change` listeners are not modelled. Each only calls `parseEmail` again, which is modelled.
- The 100 ms `setTimeout` before the automatic selection in `startQuiz` is modelled as an immediate call. Nothing else runs in between in the model.
- `syntaxHighlightJSON` (src/validator.ts:46-66) is not modelled. A regular-expression rewrite of JSON text is out of scope; the parsed-data panel is modelled as the result itself (`Highlighted`).
- The address parser (the `email-addresses` library) is a parameter. A missing parser counts as returning nothing.
- DOM exceptions are not modelled. `classList.add` throws for an empty token, as ".a..b" would give, or for a token with white space. The model adds such a token as it is.
- `setAttribute` lower-cases and validates attribute names. The model keeps the name as given.
- Each `appendChild` is modelled as adding a fresh node. Moving a node that already has a parent, and aliasing between elements, are not modelled.
- Value coercions are not modelled: a non-string `className`, a number as a style value, the string form of other objects. A non-string `className` is stored as an ordinary property.
- Quiz.Percentage: floating-point division and `Math.round` are modelled by exact integer arithmetic that rounds halves up. Floating-point rounding error is not modelled. With the fifteen shipped questions, 100·score/15 is always at least 1/6 away from a half-integer, so such error cannot change the rounding.
- JsString.ParseInt: the precision loss of `parseInt` above 2^53 is not modelled. Neither is the exponent form `toString` uses from 1e21 up. Positions on the page are at most 16.
- Quiz.QuizPage: the text of the current question number, of the address on display and of the question count is not modelled. Neither are the explanation's text and the `disabled` class on answered options. The card records which options are marked, whether the verdict is right or wrong, and whether the next button shows.
- Quiz.Initial: the page's markup is taken to start with every screen hidden. The option elements are taken to exist once a question is shown.
- Quiz.MessageMonotone is stated only for scores up to the number of questions. No session reaches a higher score (`SessionScoreBounded`).
- Quiz.PerfectIffAllRight is stated only below 200 questions. From 200 questions on, one wrong answer still rounds to 100 % and earns the perfect message. The page ships fifteen questions.
- Validator.Capitalize upper-cases ASCII letters only. The two keys it is applied to are ASCII.
- Validator.ParseResult: parser fields that are not strings are not modelled. Every field is a string or missing.
- Validator.DecodeEscape is stated for text without '&'. Text containing a literal `&quot;` would decode to '"'. The example links sit in the page's markup, which is not part of this model; they are assumed to hold no '&' of their own.
- The class shorthand goes through `split`, so ".a..b" yields an empty class name. A browser's `classList.add` then throws, so the builder can fail; the model adds the name as it is (see above).
- The class list holds each name once, because `classList.add` ignores a name already present. So ".a.a" gives the single class "a", not two.
- Dom.Assign records a property write other than `className` and `style` as a plain property only. In a browser some writes also change state the model tracks elsewhere: `textContent`, `innerHTML` and `innerText` replace the children; reflected properties such as `id`, `title` and `hidden` set attributes.
- DomProperties.BuildChildren holds only for options that write none of `textContent`, `innerHTML` or `innerText`, for the reason given under `Dom.Assign`.
- DomProperties.BuildData holds only for options that write no reflected property such as `id`, `title` or `hidden`, for the reason given under `Dom.Assign`.
- DomProperties.BuildStyle does not model the style declaration dropping invalid or empty values: every declaration given is taken to be kept.
- Quiz.AfterEvent takes the events from the page's markup, which is not part of this model. The start button is assumed to show only on the start screen, the option buttons and the next button only on the quiz screen, and the next button only once a question is answered. `startQuiz`, `selectOption` and `nextQuestion` are also globals (src/index.ts:334-336) that other markup could call at any time. Since `startQuiz` resets neither the index nor the score, a restart after the results breaks the session invariant (`RestartKeepsProgress`).
- Quiz.EventsConsistent holds under the assumptions stated for `Quiz.AfterEvent`.
- Quiz.SessionScoreBounded holds under the assumptions stated for `Quiz.AfterEvent`.
- Quiz.FifteenQuestionSession holds under the assumptions stated for `Quiz.AfterEvent`.
