# Cat Scroller 5000 — a verified model

Cat Scroller is a small desktop demo covering three things. First, a model (`App`) holds a list of cats and a cursor on the cat on display. Second, one window shows that cat and offers previous, next, kill and add controls. Third, after every handled action the window refreshes every label and button from the model.

This project models the record store and the window's decision logic in Dafny. It proves that the cursor always indexes a cat, that cats are only ever appended, and that the display always agrees with the model.

| file | module | what it holds |
|---|---|---|
| `cat_store.dfy` | `CatStore` | The store as a value: `Record`, `Store`, the invariant `Valid`, the seed, and the four operations `Next`, `Prev`, `Append`, `KillCurrent`. `Op`/`Apply`/`Run` describe runs of operations, and lemmas state the clamping law over all runs, append-only growth and the one-way alive flag. |
| `app_model.dfy` | `AppModel` | The classes `Cat` (immutable `name` and `colour`, mutable `alive`, `Kill`) and `App` (a `seq<Cat>` of distinct objects, and `currentCat`). Every `App` method is proved against its `CatStore` function through the ghost view `App.State()`. |
| `view_logic.dfy` | `ViewLogic` | Pure functions of the model state. `Render` is what `updateView` shows. `IsWhitespace`/`IsBlank` are the add guard's blank test. `Event` is a user action, `Screen` is the model plus the two text fields, and `Dispatch` is a whole action's effect. The file also states worked example scenarios as lemmas. |
| `main_window.dfy` | `MainWindowModel` | The class `MainWindow`: the text-field contents and the last rendered `Display`. Its invariant is that the display shows the model's current state. `ActionPerformed` is proved against `Dispatch`. Three client methods (`SessionPrevAtStart`, `SessionKill`, `SessionAdd`) check the specifications with the classes for concrete interaction sequences. |

The central invariant is `0 <= currentCat < |cats|` with `|cats| >= 1` (`CatStore.Valid`). It holds for three reasons:
- the constructor seeds five cats;
- nothing removes one;
- `nextCat` and `prevCat` clamp the cursor.

`RunPreservesValid` proves it for every sequence of operations. That is what makes the accesses `cats[currentCat]` in `killCat` and `updateView` safe.

The display rule is that each button is enabled exactly when pressing it would change the model (`Render`). Previous needs the cursor above 0, next needs it below the last index, and kill needs the current cat alive.

The add guard calls Kotlin's `isNotBlank` on both fields. A guard read as "non-blank after trimming" agrees with it: `BlankIffTrimsToEmpty`. The texts passed to `newCat` are the raw, untrimmed field contents, as in the code.

## Model

| member | source | states |
|---|---|---|
| `CatStore.NewRecord` | src/Main.kt:34-35 | A new cat has the given name and colour and starts alive. |
| `CatStore.Seed` | src/Main.kt:54-60 | The seed store has exactly five cats, all alive, with the cursor on the first, and it satisfies the invariant. |
| `CatStore.Next` | src/Main.kt:64-68 | The list is unchanged and the cursor becomes `min(old + 1, size - 1)`. The invariant is kept, and the call is a no-op exactly at the last index. |
| `CatStore.Prev` | src/Main.kt:70-74 | The list is unchanged and the cursor becomes `max(old - 1, 0)`. The invariant is kept, and the call is a no-op exactly at index 0. |
| `CatStore.Append` | src/Main.kt:76-79 | The list grows by exactly one. Every earlier cat is unchanged, the new last cat has the given name and colour and is alive, and the cursor is on it. The result always satisfies the invariant. |
| `CatStore.KillCurrent` | src/Main.kt:81-84 | The current cat becomes dead and keeps its name and colour. Every other cat, the length and the cursor are unchanged. The state changes exactly when the current cat was alive. |
| `CatStore.KillIdempotent` | src/Main.kt:37-39 | Killing twice gives the same state as killing once. |
| `CatStore.Apply` | src/Main.kt:64-84 | Each of the four model operations keeps the invariant. |
| `CatStore.ApplyExtends` | src/Main.kt:64-84 | No single operation removes, reorders, renames, recolours or revives a cat. |
| `CatStore.RunPreservesValid` | src/Main.kt:51-84 | From a valid state, every sequence of operations ends in a valid state, so the cursor always indexes a cat. |
| `CatStore.RunExtends` | src/Main.kt:62-84 | Over any sequence of operations, existing cats keep their position, name and colour, and a dead cat stays dead. |
| `CatStore.RunLength` | src/Main.kt:76-79 | After any sequence of operations, the list has grown by exactly the number of `newCat` calls. |
| `CatStore.NextRepeated` | src/Main.kt:64-68 | `k` calls of `nextCat` put the cursor at `min(cursor + k, size - 1)` and change nothing else. |
| `CatStore.PrevRepeated` | src/Main.kt:70-74 | `k` calls of `prevCat` put the cursor at `max(cursor - k, 0)` and change nothing else. |
| `CatStore.Reachable` | src/Main.kt:48-84 | Every state reachable from the seed is valid, holds at least five cats and still starts with Gary. |
| `AppModel.Cat.constructor` | src/Main.kt:34-35 | A new `Cat` object has the given name and colour and is alive. |
| `AppModel.Cat.Kill` | src/Main.kt:37-39 | `kill` sets `alive` to false and changes nothing else about the cat. |
| `AppModel.App.constructor` | src/Main.kt:48-60 | The new model's state is exactly the seed, the invariant holds, and every cat object is new. |
| `AppModel.App.NextCat` | src/Main.kt:64-68 | The new state is `Next` of the old one. The invariant is kept and the list is untouched. |
| `AppModel.App.PrevCat` | src/Main.kt:70-74 | The new state is `Prev` of the old one. The invariant is kept and the list is untouched. |
| `AppModel.App.NewCat` | src/Main.kt:76-79 | The new state is `Append` of the old one. One new cat object is appended after the unchanged old list. |
| `AppModel.App.KillCat` | src/Main.kt:81-84 | The new state is `KillCurrent` of the old one. Only the current cat object is written, and the list and the cursor are unchanged. |
| `ViewLogic.Render` | src/Main.kt:205-226 | The number shown is `currentCat + 1`, which lies in `1..size`. The name and colour are the current cat's, and the glyph and colour are ☻/white if it is alive and ☠/(255,170,170) if not. Previous, next and kill are each enabled exactly when the operation would change the state. |
| `ViewLogic.IsWhitespace` | src/Main.kt:254 | The fixed character set Kotlin's `Char.isWhitespace` accepts on the JVM. Space, TAB, LF and CR are whitespace, and ASCII letters and digits are not. No whitespace character lies above U+3000. NEL, the zero-width space and the byte-order mark are not whitespace. |
| `ViewLogic.IsBlank` | src/Main.kt:254 | Kotlin's `isBlank`: the empty text is blank, and a non-empty blank text starts and ends with whitespace. |
| `ViewLogic.Accepts` | src/Main.kt:254 | The add form is accepted exactly when both fields are non-empty after trimming whitespace from both ends, so it is never accepted with an empty field. |
| `ViewLogic.BlankIffTrimsToEmpty` | src/Main.kt:254 | A text is blank exactly when trimming whitespace from both ends leaves it empty. |
| `ViewLogic.Command` | src/Main.kt:233-264 | Next triggers `nextCat`, previous triggers `prevCat` and kill triggers `killCat`. An add triggers `newCat` unless a field is blank, in which case no operation runs. An accepted add calls `newCat` with the untrimmed texts. |
| `ViewLogic.Dispatch` | src/Main.kt:233-264 | The model changes by `Apply` of the triggered operation, or not at all. A rejected add leaves the screen unchanged. An accepted add clears both fields. Other actions leave the fields alone. The invariant is kept. |
| `ViewLogic.ScenarioPrevAtStart` | src/Main.kt:70-74 | From the seed, previous leaves the cursor at 0 and previous stays disabled. |
| `ViewLogic.ScenarioNextToEnd` | src/Main.kt:64-68 | From the seed, four presses of next reach index 4. Next is then disabled and previous enabled. |
| `ViewLogic.ScenarioAdd` | src/Main.kt:76-79 | Adding to the seed gives six cats with the new one current and shown. |
| `ViewLogic.ScenarioKill` | src/Main.kt:222-225 | Killing the shown cat disables kill and shows the dead glyph, and a second kill changes nothing. |
| `ViewLogic.ScenarioBlankAdd` | src/Main.kt:254 | An add with a blank name changes nothing. |
| `MainWindowModel.MainWindow.constructor` | src/Main.kt:110-118 | The window starts with empty text fields and a display that shows the model. |
| `MainWindowModel.MainWindow.UpdateView` | src/Main.kt:205-226 | What is shown afterwards is `Render` of the model state. The model and the text fields are untouched. |
| `MainWindowModel.MainWindow.EditTexts` | src/Main.kt:181-191 | Typing into the two text fields changes only their contents, and the display stays in step with the model. |
| `MainWindowModel.MainWindow.ActionPerformed` | src/Main.kt:233-266 | The new model and field state is `Dispatch` of the old one. The display again shows the model, and any cat object added is new. |
| `MainWindowModel.MainWindow.OnNext` | src/Main.kt:235-240 | The next button calls `nextCat`, then refreshes the display. |
| `MainWindowModel.MainWindow.OnPrev` | src/Main.kt:241-244 | The previous button calls `prevCat`, then refreshes the display. |
| `MainWindowModel.MainWindow.OnKill` | src/Main.kt:246-249 | The kill button calls `killCat`, then refreshes the display. |
| `MainWindowModel.MainWindow.OnAdd` | src/Main.kt:251-263 | If either field is blank, nothing changes. Otherwise `newCat` gets the raw texts, both fields are cleared, and the display shows the new cat. |

## Left out

- Window construction, layout rectangles, fonts, the title and close behaviour (src/Main.kt:123-198): these are toolkit plumbing with no model logic.
- `main` and `FlatDarkLaf.setup()` (src/Main.kt:24-28): process start-up and a third-party look-and-feel library.
- `nameText.requestFocus()` (src/Main.kt:262): keyboard focus belongs to the toolkit.
- Dispatch on the identity of the event source (src/Main.kt:234): the model uses the tagged `Event` type instead. An event with a null or unrelated source does nothing in the code, and `Event` has no such value.
- The label text of the number: the model keeps the integer and leaves out its conversion to a decimal string.
- Kotlin strings are sequences of UTF-16 code units, while a Dafny `string` is a sequence of Unicode scalar values, so a field holding an unpaired surrogate has no model value. The blank test does not depend on this, because no whitespace character is a surrogate or lies above U+FFFF.
- 32-bit `Int` arithmetic: it is not modelled. Under the invariant the cursor is below the list size, so `currentCat + 1` cannot overflow in practice.
- `ViewLogic.IsWhitespace`: this is a fixed character set, the union of the JVM's `isWhitespace` and `isSpaceChar` as of current Unicode tables. How that set depends on the JVM's Unicode version is not modelled.
- `CatStore.KillCurrent` and `ViewLogic.Render` require the invariant. Kotlin would throw `IndexOutOfBoundsException` on an out-of-range cursor, but every operation keeps the invariant, so that exception path is unreachable and not modelled.
- `AppModel.App` carries a ghost field `records` that mirrors the values of the cat objects; it has no counterpart in the code. Its contracts are stated through it.
- Each `when` branch of `actionPerformed` is a separate method (`OnNext`, `OnPrev`, `OnKill`, `OnAdd`), and `ActionPerformed` dispatches to them. The behaviour is the same as the single method in the code.
