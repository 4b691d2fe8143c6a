# Form validators and screen state machines of react-native-learning

This project models, in Dafny, the logic layer of a React Native tutorial
application. It covers two kinds of code.

- **Form validators.** These are the user-input form (`app/UserInput.tsx`
  and its twin `app/user-input.tsx`) and the sign-up, register and
  forgot-password screens. Each screen is a class whose fields are the
  component's `useState` variables. Its handlers are methods that replace
  those fields. The validation decisions are pure functions that the
  methods are proved against.
- **Navigation state machines.** These are the two onboarding flows, the
  login/sign-up/forgot selector of the auth flow, the tab-and-drawer
  controller of the main app, and the drawer and nested-navigation screens.
  Each is a class with its one to three state fields. The handlers are
  methods, and the render switches are total functions.

Shared pieces, in their own modules:

- `Text`: JavaScript's whitespace (the WhiteSpace and LineTerminator
  productions of ECMA-262), `trim`, the UTF-16 `length` of a string, and
  counting and locating a character.
- `EmailPattern`: the regular expression `/^[^\s@]+@[^\s@]+\.[^\s@]+$/` that
  four screens share. It is defined twice and proved to be one predicate:
  once as the language of the expression (`MatchesEmailRegex`, some split
  local@host.tail with three non-empty runs of non-blank, non-`@`
  characters), and once as a direct check (`IsValidEmail`).
- `OnboardingPages`: the pagination row of the three onboarding pages.
- `DrawerAnimation`: the animation target of the `toggleDrawer` that two
  screens share.

Conventions:

- A handler runs as one sequential update of the current state.
- Router pushes, `router.back()` and alerts are returned as outcome values,
  such as `Exit`, `Outcome`, `Effect` or the alert text.
- A press on a button that the current render does not show changes
  nothing.
- Multi-call properties are proved by small client methods that call the
  class methods: toggle twice, skip twice, next then back, submit twice.

One property differs from its plain wording. The Description line of the
user-input summary reads "Not provided" when the description is empty. It
also reads "Not provided" when the user typed "Not provided" there. The code
uses `description || "Not provided"`, and the model follows the code
(`UserInputSummary.PlaceholderShownIff`).

## Model

| member | source | states |
|---|---|---|
| Text.TrimStart | app/UserInput.tsx:104 | the result is the suffix of the input left after deleting its leading whitespace, and it starts with a non-whitespace character |
| Text.TrimEnd | app/UserInput.tsx:104 | the result is the prefix left after deleting the trailing whitespace, and it ends with a non-whitespace character |
| Text.TrimEmptyIff | app/UserInput.tsx:104 | `!s.trim()` holds exactly when every character of `s` is JavaScript whitespace |
| Text.TrimNoWhitespace | app/UserInput.tsx:111 | a string with no whitespace trims to itself |
| Text.Utf16Length | app/UserInput.tsx:117 | `s.length` counts UTF-16 code units: between one and two per character, and zero only for "" |
| Text.Count | app/UserInput.tsx:110 | the number of occurrences of a character is at most the length, and zero exactly when the character is absent |
| Text.IndexOf | app/UserInput.tsx:110 | the first position of a character, or -1 exactly when it is absent; no earlier position holds it |
| Text.CountOnce | app/UserInput.tsx:110 | a character occurs once exactly when no other position holds it |
| EmailPattern.ValidEmailMatchesRegex | app/UserInput.tsx:110-111 | the direct check (no whitespace, one '@', non-empty local part, a '.' inside the domain) holds exactly when the regular expression matches |
| EmailPattern.ValidEmailIsNotBlank | app/UserInput.tsx:111 | a matching address is non-empty and trims to itself, so the `!email.trim()` half of the check adds nothing |
| UserInput.WithField | app/UserInput.tsx:83-88 | `updateFormData(k, v)` gives field `k` the value `v` and keeps every other field |
| UserInput.ClearedError | app/UserInput.tsx:91-94 | clearing sets that key's entry to "" and keeps the other entries |
| UserInput.ErrorsAfterEdit | app/UserInput.tsx:90-95 | typing into a field that has an entry leaves that entry empty; other entries are kept; a key with no entry (description, gender, language, terms) leaves the errors untouched |
| UserInput.FormValidIff | app/UserInput.tsx:99-124 | validation passes exactly when the name has a non-whitespace character, the e-mail matches the pattern and the password has at least 6 UTF-16 code units |
| UserInput.ValidatedOnlyAdds | app/UserInput.tsx:101-122 | validation writes only the three fixed messages, never clears an entry, and leaves a non-empty message under every failing field |
| UserInput.ValidatedIdempotent | app/UserInput.tsx:99-124 | validating the same form twice gives the errors of the first pass |
| UserInput.CheckForm | app/UserInput.tsx:99-124 | the `isValid` flag loop of `validateForm` returns the validity predicate and the copied-then-updated error record |
| UserInput.UserInputScreen.constructor | app/UserInput.tsx:40-58 | all strings empty except language "javascript", terms not agreed, all three errors "", not submitting |
| UserInput.UserInputScreen.UpdateFormData | app/UserInput.tsx:83-96 | sets the one field, clears only that field's non-empty error, and leaves the submitting flag alone |
| UserInput.UserInputScreen.ValidateForm | app/UserInput.tsx:99-124 | returns validity and stores the validated errors; the form is unchanged |
| UserInput.UserInputScreen.HandleSubmit | app/UserInput.tsx:127-132 | submitting starts exactly when validation passes; an invalid submit leaves the flag as it was |
| UserInput.UserInputScreen.PressSubmit | app/UserInput.tsx:302-309 | while terms are not agreed or a submission runs, a press changes nothing; otherwise it is `handleSubmit` |
| UserInput.UserInputScreen.SubmissionTimerFires | app/UserInput.tsx:134-135 | the timer ends the submission and changes nothing else |
| UserInput.SubmitTwice | app/UserInput.tsx:127-132 | once a press has started a submission, a second press does nothing |
| UserInputSummary.PlaceholderShownIff | app/user-input.tsx:141-142 | a non-empty value is shown as typed; the placeholder is shown exactly when the value is empty or equals the placeholder |
| UserInputSummary.OccursAfter | app/user-input.tsx:138-144 | a part placed between two strings occurs right after the first |
| UserInputSummary.SummaryShowsName | app/user-input.tsx:139 | the summary contains the name verbatim |
| UserInputSummary.SummaryShowsEmail | app/user-input.tsx:140 | the summary contains the e-mail verbatim |
| UserInputSummary.SummaryShowsLanguage | app/user-input.tsx:143 | the summary contains the language verbatim |
| UserInputSummary.SummaryTermsLine | app/user-input.tsx:144 | the summary ends with "Agreed to Terms: Yes" exactly when the terms were agreed |
| UserInputSummary.SummaryIgnoresPassword | app/user-input.tsx:138-144 | the summary does not depend on the password |
| UserInputSummary.HandleSubmit | app/user-input.tsx:127-147 | an alert is produced exactly when validation passes, its text is the summary of the submitted form, and the submitting flag is set then |
| EmailPattern.ValidateEmail | app/navigation-example/screens/auth/SignupScreen.tsx:28-31 | exactly the e-mail pattern; ForgotPasswordScreen.tsx:26-29 is the same function, and both screens call this member |
| SignupScreen.SignupForm.constructor | app/navigation-example/screens/auth/SignupScreen.tsx:19-26 | four empty fields and four empty messages |
| SignupScreen.SignupForm.ChangeText | app/navigation-example/screens/auth/SignupScreen.tsx:96-141 | typing changes the one field it is bound to |
| SignupScreen.SignupForm.HandleSignup | app/navigation-example/screens/auth/SignupScreen.tsx:33-77 | each of the four messages is recomputed (the name untrimmed, the e-mail and password each with two messages, the confirmation against the password), and `onSignup` is called exactly when all four are "", that is, when the name is non-empty, the e-mail matches, the password has at least 6 code units and the two passwords agree |
| SignupScreen.SignupTwice | app/navigation-example/screens/auth/SignupScreen.tsx:33-77 | two presses on unchanged fields give the same outcome and leave the same four messages |
| RegisterScreen.WithField | navigation-example/screens/auth/RegisterScreen.tsx:67-72 | `updateFormData(k, v)` changes only key `k` |
| RegisterScreen.FirstFailure | navigation-example/screens/auth/RegisterScreen.tsx:33-52 | the message of the first failing check in a list, or none exactly when all pass |
| RegisterScreen.RegisterErrorIsFirstFailure | navigation-example/screens/auth/RegisterScreen.tsx:33-52 | the guard chain raises at most one alert, that of the first failing check in the order fill, match, length |
| RegisterScreen.RegisterAcceptsIff | navigation-example/screens/auth/RegisterScreen.tsx:33-54 | registration proceeds exactly when all five fields are non-empty (untrimmed), the passwords agree and the password has at least 6 code units |
| RegisterScreen.MismatchReportedBeforeLength | navigation-example/screens/auth/RegisterScreen.tsx:44-52 | with the fields filled, a mismatch is reported even when the password is also too short |
| RegisterScreen.RegisterScreenState.constructor | navigation-example/screens/auth/RegisterScreen.tsx:22-29 | an empty form, not loading |
| RegisterScreen.RegisterScreenState.HandleRegister | navigation-example/screens/auth/RegisterScreen.tsx:31-54 | the alert is the guard chain's message, and loading starts only when there is none; a failure leaves the flag as it was |
| RegisterScreen.RegisterScreenState.UpdateFormData | navigation-example/screens/auth/RegisterScreen.tsx:67-72 | the form becomes the record with key `k` replaced |
| RegisterScreen.RegisterScreenState.PressCreateAccount | navigation-example/screens/auth/RegisterScreen.tsx:156-160 | the button ignores presses while loading and otherwise runs `handleRegister` |
| RegisterScreen.RegisterScreenState.LoadingTimerFires | navigation-example/screens/auth/RegisterScreen.tsx:57-58 | the timer ends loading |
| ForgotPasswordScreen.ForgotPasswordForm.constructor | app/navigation-example/screens/auth/ForgotPasswordScreen.tsx:23-24 | empty e-mail and message |
| ForgotPasswordScreen.ForgotPasswordForm.ChangeEmail | app/navigation-example/screens/auth/ForgotPasswordScreen.tsx:76 | typing sets the e-mail |
| ForgotPasswordScreen.ForgotPasswordForm.HandleSubmit | app/navigation-example/screens/auth/ForgotPasswordScreen.tsx:31-53 | "Email is required" for "", "Please enter a valid email address" when the pattern fails, "" otherwise; the success alert appears exactly when the pattern matches, and `onSubmit` is never called from here |
| ForgotPasswordScreen.ForgotPasswordForm.PressAlertOk | app/navigation-example/screens/auth/ForgotPasswordScreen.tsx:50 | the alert's OK is what calls `onSubmit` |
| ForgotPasswordScreen.SubmitTwice | app/navigation-example/screens/auth/ForgotPasswordScreen.tsx:31-53 | repeated submits of the same e-mail give the same effect and leave the message the first submit set |
| OnboardingPages.Dots | app/navigation-example/screens/onboarding/WelcomeScreen.tsx:42-47 | one dot per step, dot `i` lit exactly when `i` equals the `step` prop |
| OnboardingPages.DotsLit | app/navigation-example/screens/onboarding/FeatureScreen.tsx:84-89 | an in-range step lights its dot; a step past the end lights none |
| OnboardingFlowExample.RenderStep | app/navigation-example/onboarding-flow-example.tsx:46-77 | a page exactly for steps 0..2, given `step = currentStep` and 3 steps; the Setup page exactly on step 2, whose Next and Skip are both `handleComplete`; Next and Skip otherwise |
| OnboardingFlowExample.RenderedDotsMarkCurrentStep | app/navigation-example/onboarding-flow-example.tsx:53-71 | the 0-based step handed to the page lights exactly the current step's dot |
| OnboardingFlowExample.OnboardingFlow.constructor | app/navigation-example/onboarding-flow-example.tsx:19-20 | starts at step 0, within 0..2 |
| OnboardingFlowExample.OnboardingFlow.Next | app/navigation-example/onboarding-flow-example.tsx:23-30 | below the last step, one step forward without completing; on the last step, completion with the step unchanged; the bound is preserved |
| OnboardingFlowExample.OnboardingFlow.Skip | app/navigation-example/onboarding-flow-example.tsx:33-35 | to step 2 from anywhere, without completing |
| OnboardingFlowExample.OnboardingFlow.Complete | app/navigation-example/onboarding-flow-example.tsx:38-43 | completes, step unchanged |
| OnboardingFlowExample.OnboardingFlow.Run | app/navigation-example/onboarding-flow-example.tsx:23-43 | each of the three handlers, as above |
| OnboardingFlowExample.OnboardingFlow.Press | app/navigation-example/onboarding-flow-example.tsx:46-77 | a button press through the rendered wiring: on the last page both buttons complete; before it Next advances and Skip jumps to the last page; the bound is preserved |
| OnboardingFlowExample.SkipTwice | app/navigation-example/onboarding-flow-example.tsx:33-35 | skipping is idempotent and never completes |
| OnboardingFlowExample.NextThroughAllPages | app/navigation-example/onboarding-flow-example.tsx:19-77 | from a fresh flow, three Next presses stay, stay, then complete |
| RealWorldOnboarding.ChildPropsAsWritten | app/navigation-example/real-world/onboarding.tsx:79-84 | the current page with `step = currentScreen + 1`, in 1..3, and 3 steps |
| RealWorldOnboarding.AsWrittenDotsMisplaced | app/navigation-example/real-world/onboarding.tsx:82 | with the 1-based step, the current page's dot is never lit, the next page's is, and on the last page none is |
| RealWorldOnboarding.CurrentChildProps | app/navigation-example/real-world/onboarding.tsx:49 | the page `screens[currentScreen].component` with the step that lights exactly the current page's dot |
| RealWorldOnboarding.OnboardingFlowScreen.constructor | app/navigation-example/real-world/onboarding.tsx:21-26 | starts at index 0, in bounds of the three screens |
| RealWorldOnboarding.OnboardingFlowScreen.HandleNext | app/navigation-example/real-world/onboarding.tsx:28-35 | increments below the last screen; otherwise exits to auth with the index unchanged; the bound is preserved |
| RealWorldOnboarding.OnboardingFlowScreen.HandleBack | app/navigation-example/real-world/onboarding.tsx:37-43 | decrements above 0; otherwise exits back with the index unchanged; the bound is preserved |
| RealWorldOnboarding.OnboardingFlowScreen.HandleSkip | app/navigation-example/real-world/onboarding.tsx:45-47 | exits to auth and never changes the index |
| RealWorldOnboarding.OnboardingFlowScreen.BackToExamples | app/navigation-example/real-world/onboarding.tsx:114-118 | the footer exits to the examples |
| RealWorldOnboarding.OnboardingFlowScreen.CurrentChild | app/navigation-example/real-world/onboarding.tsx:49-85 | under the invariant the rendered page is `screens[currentScreen].component` with the 1-based step the flow passes, one more than the step that lights the current page's dot |
| RealWorldOnboarding.NextThenBack | app/navigation-example/real-world/onboarding.tsx:28-43 | from any non-last index, Next then Back restores it without leaving |
| RealWorldOnboarding.BackThenNext | app/navigation-example/real-world/onboarding.tsx:28-43 | from any index above 0, Back then Next restores it without leaving |
| AuthFlow.LinkTargetAsWritten | app/navigation-example/auth-flow.tsx:63-90 | the links as wired: Sign Up and Forgot Password from login, Log In from sign-up, and a forgot-password back button that does nothing |
| AuthFlow.AsWrittenForgotHasNoWayBack | app/navigation-example/auth-flow.tsx:84 | as wired, no link leads away from the forgot-password screen |
| AuthFlow.LinkTarget | app/navigation-example/auth-flow.tsx:69-84 | the intended wiring; every link leads to a different screen |
| AuthFlow.LinkTargetDiffersOnlyOnBack | app/navigation-example/auth-flow.tsx:84 | the intended wiring differs from the written one exactly on the forgot-password back button |
| AuthFlow.LinksConnectLogin | app/navigation-example/auth-flow.tsx:69-84 | login reaches sign-up and forgot-password, and each of them has a link straight back to login |
| AuthFlow.AuthFlowState.constructor | app/navigation-example/auth-flow.tsx:17-19 | starts at login |
| AuthFlow.AuthFlowState.PressLink | app/navigation-example/auth-flow.tsx:63-90 | a link press moves to its target as the links are wired and otherwise changes nothing; on the forgot-password screen no press moves, and on the other two screens the press agrees with the corrected wiring |
| AuthFlow.AuthFlowState.HandleLogin | app/navigation-example/auth-flow.tsx:22-30 | raises the login success alert |
| AuthFlow.AuthFlowState.HandleSignup | app/navigation-example/auth-flow.tsx:33-45 | raises the registration alert |
| AuthFlow.AuthFlowState.HandleForgotPassword | app/navigation-example/auth-flow.tsx:48-60 | raises the password-reset alert |
| AuthFlow.AuthFlowState.PressAlertButton | app/navigation-example/auth-flow.tsx:26-56 | "Go to App" exits with the screen unchanged; "Go to Login" and "Return to Login" select login |
| AuthFlow.LogIn | app/navigation-example/auth-flow.tsx:22-30 | login success leaves the selector at login and exits to the examples route |
| AuthFlow.SignUp | app/navigation-example/auth-flow.tsx:41 | a sign-up press followed by "Go to Login" returns to login exactly when the sign-up checks all pass |
| AuthFlow.ResetPassword | app/navigation-example/auth-flow.tsx:56 | submit, OK and "Return to Login" return to login exactly when the e-mail matches the pattern |
| MainAppFlow.RenderScreen | app/navigation-example/main-app-flow.tsx:38-51 | total over the four tabs, each tab showing its own screen |
| MainAppFlow.RenderScreenInjective | app/navigation-example/main-app-flow.tsx:38-51 | different tabs show different screens |
| MainAppFlow.RenderDrawer | app/navigation-example/main-app-flow.tsx:54-129 | drawer content exactly when the drawer is open: the four menu items in order, each highlighted exactly when it is the active tab |
| MainAppFlow.DrawerHighlightsOneItem | app/navigation-example/main-app-flow.tsx:74-116 | the open drawer highlights exactly one item |
| MainAppFlow.MainAppFlowState.constructor | app/navigation-example/main-app-flow.tsx:19-22 | starts on home with the drawer closed |
| MainAppFlow.MainAppFlowState.ToggleDrawer | app/navigation-example/main-app-flow.tsx:25-27 | flips the drawer and keeps the tab |
| MainAppFlow.MainAppFlowState.HandleTabPress | app/navigation-example/main-app-flow.tsx:30-35 | selects the tab and closes the drawer from any state |
| MainAppFlow.MainAppFlowState.PressDrawerBackground | app/navigation-example/main-app-flow.tsx:59-63 | closes the drawer and keeps the tab |
| MainAppFlow.ToggleTwice | app/navigation-example/main-app-flow.tsx:25-27 | toggling twice restores the state |
| MainAppFlow.PressTabTwice | app/navigation-example/main-app-flow.tsx:30-35 | pressing the same tab twice gives the state of one press |
| DrawerAnimation.ToggleTarget | app/navigation-example/drawer-navigation.tsx:25-42 | the animation heads for 1 exactly when the drawer was closed, and for 0 otherwise |
| DrawerAnimation.Resting | app/navigation-example/drawer-navigation.tsx:22 | the resting value 1 exactly for an open drawer, 0 for a closed one |
| DrawerAnimation.ToggleTargetIsNewResting | app/navigation-example/nested-navigation.tsx:25-42 | a toggle heads for the resting value of the new flag |
| DrawerNavigation.RenderScreenContent | app/navigation-example/drawer-navigation.tsx:51-96 | a panel exactly for the four screen names, the panel of that name |
| DrawerNavigation.DrawerHighlights | app/navigation-example/drawer-navigation.tsx:132-174 | item `i` is highlighted exactly when it names the current screen |
| DrawerNavigation.HighlightMatchesContent | app/navigation-example/drawer-navigation.tsx:51-174 | on a known screen exactly one item is highlighted, the one whose panel is shown |
| DrawerNavigation.DrawerNavigationScreen.constructor | app/navigation-example/drawer-navigation.tsx:18-22 | drawer closed, screen "profile", animation at 0 |
| DrawerNavigation.DrawerNavigationScreen.ToggleDrawer | app/navigation-example/drawer-navigation.tsx:25-42 | target 1 when opening and 0 when closing, the flag flipped, and the target matching the new flag |
| DrawerNavigation.DrawerNavigationScreen.NavigateToScreen | app/navigation-example/drawer-navigation.tsx:45-48 | sets the screen and flips the drawer; it does not force it closed |
| DrawerNavigation.DrawerNavigationScreen.PressDrawerItem | app/navigation-example/drawer-navigation.tsx:132-174 | selects the item's screen, flips the drawer, and keeps the invariant |
| DrawerNavigation.DrawerNavigationScreen.PressOverlay | app/navigation-example/drawer-navigation.tsx:118-124 | the overlay exists only while open, and pressing it closes the drawer with target 0 |
| DrawerNavigation.ToggleTwice | app/navigation-example/drawer-navigation.tsx:25-42 | two toggles restore the flag and the screen, and the last target is the original flag as 0/1 |
| NestedNavigation.RenderTabContent | app/navigation-example/nested-navigation.tsx:62-149 | a panel exactly for home, search and profile, the panel of that tab |
| NestedNavigation.NestedNavigationScreen.constructor | app/navigation-example/nested-navigation.tsx:20-22 | home tab, drawer closed, animation at 0 |
| NestedNavigation.NestedNavigationScreen.ToggleDrawer | app/navigation-example/nested-navigation.tsx:25-42 | target 1 when opening and 0 when closing, the flag flipped |
| NestedNavigation.NestedNavigationScreen.PressTab | app/navigation-example/nested-navigation.tsx:290-336 | sets the tab and never changes the drawer |
| NestedNavigation.NestedNavigationScreen.PressEditProfileSettings | app/navigation-example/nested-navigation.tsx:136-138 | on the profile panel it toggles the drawer; the tab is unchanged |
| NestedNavigation.NestedNavigationScreen.PressOverlay | app/navigation-example/nested-navigation.tsx:154-160 | the overlay exists only while open, and pressing it closes the drawer |
| NestedNavigation.NestedNavigationScreen.PressDrawerItem | app/navigation-example/nested-navigation.tsx:168-196 | the drawer's items have no handler, so a press changes nothing |
| NestedNavigation.ToggleTwice | app/navigation-example/nested-navigation.tsx:25-42 | toggling twice restores the flag and keeps the tab |
| NestedNavigation.EditThenSwitchTab | app/navigation-example/nested-navigation.tsx:136-336 | a drawer opened from the profile tab stays open across a tab change |

## Left out

- Layout, styles, `Platform.OS` branches, icons and static text are not modelled, and neither are the content pages.
- Animation interpolation and the drawer width are floating point and library-driven. Only the 0/1 target of each animation is modelled.
- `router.push`, `router.back`, `navigation.navigate`, `Link` and `Alert.alert` are external. They appear only as outcome values.
  - The Register screen's "Sign In" link (navigation-example/screens/auth/RegisterScreen.tsx:174) is router-only.
  - So are the return buttons of drawer-navigation.tsx (line 244) and nested-navigation.tsx (lines 75, 87 and 280), and the drawer's Logout item in main-app-flow.tsx (line 121).
- `setTimeout` is an external timer. Its completion is a separate method (`SubmissionTimerFires`, `LoadingTimerFires`). The navigation after the register timer is not modelled.
- `Keyboard.dismiss` and the keyboard listeners are not modelled; they do not affect the form state.
- React's batching of state updates and stale closures are not modelled; each handler is one sequential update.
- The summary alert of app/user-input.tsx is built when Submit is pressed. The source builds it 1.5 s later from the form captured at the press, so the text is the same.
- The texts of the auth-flow success alerts are not modelled. They interpolate arguments that the child screens never pass, so they would read `undefined`.
- LoginScreen is not part of this model; auth-flow.tsx imports it, but its source is absent. Its two links and its login callback are modelled only as the parent wires them.
- The navigator registration, the layout files and the type declarations hold no logic of their own.
- UserInput.UserInputScreen.UpdateFormData requires a value of the field's own kind (`Fits`): a boolean for the terms switch and a string for the other fields. The TypeScript signature accepts either kind for any key, but every call site passes the matching kind.
- AuthFlow.AuthFlowState.PressLink and RealWorldOnboarding.OnboardingFlowScreen.CurrentChild follow the code as written, including the two defects under "## Findings". The corrected definitions (`LinkTarget`, `CurrentChildProps`) stand beside them with their properties proved, and each class member's contract relates it to the corrected one.
- OnboardingFlowExample.OnboardingFlow.Press requires the step invariant, since only a rendered page has buttons.
- The character set of `\s` and `trim` is the one ECMA-262 defines. `length` counts UTF-16 code units, while the model's strings are sequences of code points.

## Findings

| source | as written | input that shows it | evidently intended | confidence | as-written member | corrected member |
|---|---|---|---|---|---|---|
| app/navigation-example/auth-flow.tsx:84 | the parent passes the back callback as `onBackToLogin`, but ForgotPasswordScreen reads it as `onBackToLoginPress` (app/navigation-example/screens/auth/ForgotPasswordScreen.tsx:16, 94), so "Back to Login" has no handler | on the forgot-password screen, press "Back to Login": the screen stays | the button returns to login, like "Log In" does on the sign-up screen | high (not executed) | AuthFlow.LinkTargetAsWritten, AuthFlow.AsWrittenForgotHasNoWayBack | AuthFlow.LinkTarget, AuthFlow.LinksConnectLogin |
| app/navigation-example/real-world/onboarding.tsx:82 | the page gets `step={currentScreen + 1}`, but the pages light dot `index === step` with indices 0..2 (app/navigation-example/screens/onboarding/WelcomeScreen.tsx:42-47) | on the first page (currentScreen 0) the second dot is lit; on the last page (currentScreen 2, step 3) no dot is lit | the current page's dot is lit, as with the 0-based step of onboarding-flow-example.tsx:53 | high (not executed) | RealWorldOnboarding.ChildPropsAsWritten, RealWorldOnboarding.AsWrittenDotsMisplaced | RealWorldOnboarding.CurrentChildProps |
