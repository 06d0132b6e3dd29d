# CityConnect civic-issue app: core logic in Dafny

This project models the decision logic of the CityConnect civic-issue reporting app, a React Native application. Almost all of the app is presentational. The logic that remains is modelled here and proved correct against contracts:

- **Location cache service** (`LocationService`). It keeps the last known fix and an optional watch subscription. It makes one-shot fetches: permission first, then the position provider, then reverse geocoding, and it composes the address from the geocoded parts. It reuses a cached fix for a photo while the fix is younger than five minutes.
- **Mock authentication context** (`AuthProvider`). It holds two test credentials chosen by the requested user type, plus a guest credential that is checked first and accepted for any type. Emails match ignoring case and OTPs match exactly. The signed-in user and the persisted `user_data` record change together.
- **Relative-time label of an update** (`formatTimeAgo`) and its icon choice.
- **Location-tagging photo picker.** Camera and gallery give opposite precedence to the live fix and the photo's EXIF coordinates. The picker also has the `hasAutoLocation` flag, the add button and the capturing flag.
- **Onboarding pager.** A slide index over three slides, its pagination dots, and which buttons are visible.
- **Citizen and admin login screens.** Their input guards, their submit buttons' disabled state, and the call into the auth context with trimmed input. They navigate to the tabs only on success, except for the citizen guest path, which always navigates, and the citizen Google button, which navigates without signing anyone in.
- **Shared auth widgets.** The six-slot dashed OTP display, the six-character OTP field, and the primary button.

Platform services are not modelled as code. Permission prompts, GPS, reverse geocoding, the image picker, persistent storage, the router and alerts are replaced by the outcomes they report, passed in as parameters. The calls the location service makes, and the routes and photos the screens hand on, are recorded in sequence fields, so "no provider call" and "no navigation" are stated facts. The JavaScript built-ins the logic relies on are modelled in module `Text`:

- `String.prototype.trim`, with JavaScript's white-space set;
- `toLowerCase`, on ASCII letters;
- the decimal rendering of integers in template literals.

Files: `wrappers.dfy` (Option), `text.dfy` (Text), `location_service.dfy` (Location), `auth_context.dfy` (AuthContext), `update_item.dfy` (UpdateItem), `photo_picker.dfy` (PhotoPicker), `onboarding.dfy` (Onboarding), `auth_components.dfy` (AuthComponents), `login_screens.dfy` (LoginScreens).

## Model

| member | source | states |
|---|---|---|
| Text.TrimStartSpec | services/LocationService.ts:79 | trimming the front keeps a suffix that starts with a non-space and drops only white space |
| Text.TrimEndSpec | services/LocationService.ts:79 | trimming the end keeps a prefix that ends with a non-space and drops only white space |
| Text.Trim | services/LocationService.ts:79 | `trim()` is the front trim followed by the end trim; what it returns is characterised by `TrimIsTrimmedSlice` and `TrimEmptyIff` |
| Text.TrimIsTrimmedSlice | services/LocationService.ts:79 | `trim()` returns a contiguous slice of its input with no white space at either end, and everything it drops is white space |
| Text.TrimEmptyIff | app/citizen-login.tsx:26 | `s.trim()` is empty (the guard's `!s.trim()`) exactly when every character of `s` is white space |
| Text.TrimOfTrimmed | app/admin-login.tsx:33 | a string with no white space at either end is passed on unchanged by `trim()` |
| Text.TrimDropsTrailingSpace | services/LocationService.ts:79 | one trailing space after a non-empty unpadded string is all that `trim()` removes |
| Text.TrimIdempotent | services/LocationService.ts:79 | trimming twice is trimming once |
| Text.LowerChar | contexts/AuthContext.tsx:84 | `toLowerCase` maps an ASCII capital 32 code points up to its small letter and leaves every other character alone |
| Text.Lower | contexts/AuthContext.tsx:84 | `toLowerCase` lowers every character of a string in place; its properties are `LowerFixesLowercase` and `LowerIdempotent` |
| Text.LowerFixesLowercase | contexts/AuthContext.tsx:100 | lowering a string with no capitals returns it unchanged |
| Text.LowerIdempotent | contexts/AuthContext.tsx:100 | lowering twice is lowering once |
| Text.NatToDecimal | components/shared/UpdateItem.tsx:55 | the rendering of a natural number is a non-empty string of digits, with no leading zero unless the number is 0 |
| Text.IntToDecimal | components/shared/UpdateItem.tsx:55 | an integer inside a template literal is a minus sign for a negative number followed by the digits of its magnitude; `IntToDecimalRoundTrip` inverts it |
| Text.NatToDecimalRoundTrip | components/shared/UpdateItem.tsx:55 | reading the decimal rendering of a natural number back gives the number |
| Text.IntToDecimalRoundTrip | components/shared/UpdateItem.tsx:55 | reading the rendering of any integer, negative ones included, back gives the integer |
| Location.GeocodedAddress | services/LocationService.ts:77-80 | an address exists exactly when geocoding returned a non-empty list, and it is the composition of the first candidate |
| Location.ComposeAddress | services/LocationService.ts:79 | street, city and region, a missing part read as "", joined by single spaces and trimmed; `ComposeAddressIsTrimmed` and `ComposeAddressOfCleanParts` state what results |
| Location.Fetch | services/LocationService.ts:52-96 | a fetch fails exactly on denied permission or provider failure; otherwise it has the provider's coordinates and timestamp, and an address exactly when geocoding returned a candidate |
| Location.FetchCalls | services/LocationService.ts:54-75 | the permission request always comes first; the provider is called exactly when permission was granted; geocoding happens exactly when a position was also obtained; the calls are made once each, in the order permission, provider, geocoding |
| Location.IsFresh | services/LocationService.ts:164-169 | a photo may reuse the cache when there is a fix whose age, `now` minus its timestamp with a missing one read as 0, is under 300 000 ms |
| Location.PhotoLocation | services/LocationService.ts:162-176 | a fresh cached fix is returned as is; otherwise the result is that of a one-shot fetch |
| Location.PhotoCalls | services/LocationService.ts:162-176 | choosing a photo's location makes no platform call when the cache is fresh, and otherwise the calls of a one-shot fetch; `FreshCacheIgnoresProvider` and `StaleCacheFetches` state both cases |
| Location.FormatForDisplay | services/LocationService.ts:181-186 | a fix is shown as its address exactly when the address is present and non-empty, and otherwise as its own coordinates |
| Location.LocationEnabled | services/LocationService.ts:150-157 | location counts as enabled exactly when the platform answered true; a failed query counts as disabled |
| Location.LocationService.constructor | services/LocationService.ts:13-14 | a new service has no cached fix, no subscription and no platform calls |
| Location.LocationService.GetCurrentLocation | services/LocationService.ts:52-96 | the result is `Fetch` of the platform's answers; the cache becomes the result on success and is untouched on failure; the platform calls made are `FetchCalls` |
| Location.LocationService.StartWatchingLocation | services/LocationService.ts:101-128 | succeeds exactly on granted permission and a successful registration; only then is a new handle held and one more subscription live (a second start leaves the first one live); with permission denied no watch is registered |
| Location.LocationService.OnWatchUpdate | services/LocationService.ts:114-120 | a watch update replaces the cache with the update's coordinates and timestamp and no address |
| Location.LocationService.StopWatchingLocation | services/LocationService.ts:133-138 | afterwards no handle is held; a held subscription is removed with one platform call; with none held nothing changes |
| Location.LocationService.GetLastKnownLocation | services/LocationService.ts:143-145 | returns the cached fix |
| Location.LocationService.GetLocationForPhoto | services/LocationService.ts:162-176 | the result is `PhotoLocation` of the cache at entry; with a fresh cache it makes no platform call and changes nothing; otherwise it behaves as `GetCurrentLocation` |
| Location.FreshCacheIgnoresProvider | services/LocationService.ts:164-171 | with a fresh cache, the photo's location is the cached fix whatever the platform would answer, and no platform call is made |
| Location.StaleCacheFetches | services/LocationService.ts:164-175 | with no cache, or one at least 300 000 ms old (a missing timestamp counting as 0), the photo gets exactly a one-shot fetch and its calls |
| Location.DeniedPermissionCallsNoProvider | services/LocationService.ts:54-57 | with permission denied a fetch returns nothing, and the permission request is its only call |
| Location.GeocodeFailureKeepsFix | services/LocationService.ts:81-86 | a geocoding failure still yields the fix, with the provider's coordinates and timestamp and no address |
| Location.ComposeAddressIsTrimmed | services/LocationService.ts:79 | the composed address never starts or ends with white space |
| Location.ComposeAddressOfCleanParts | services/LocationService.ts:79 | three present, non-empty parts, whose street and region are unpadded, compose to street, city and region joined by single spaces |
| Location.EmptyPlaceShowsCoordinates | services/LocationService.ts:79 | a candidate with no parts yields the empty address, and a fix carrying it is displayed as coordinates |
| Location.MainStreetScenario | services/LocationService.ts:77-80 | a street "123 Main St," and city "San Francisco" with no region give the address "123 Main St, San Francisco": the trailing separator is trimmed away |
| AuthContext.TestCredential | contexts/AuthContext.tsx:24-45 | only the types "admin" and "citizen" have a credential, and each gets its own |
| AuthContext.Matches | contexts/AuthContext.tsx:84-101 | a credential matches when the emails are equal after lowering both and the OTPs are exactly equal; `EmailCaseIgnored` and `OtpExact` state the two halves |
| AuthContext.Authenticate | contexts/AuthContext.tsx:81-119 | the guest credential signs in the guest for any type; otherwise a login succeeds exactly when the requested type has a credential whose email matches ignoring case and whose OTP matches exactly, and it signs in that credential's user |
| AuthContext.DerivedUserType | contexts/AuthContext.tsx:130 | the context's `userType`, applied to the provider's `user`: there is no user type without a user; with one, it is the user's |
| AuthContext.AuthProvider.constructor | contexts/AuthContext.tsx:60 | the provider starts with no user |
| AuthContext.AuthProvider.Login | contexts/AuthContext.tsx:81-119 | succeeds exactly when `Authenticate` finds a user and the storage write goes through; on success both the stored record and the user are that user; on failure neither changes |
| AuthContext.AuthProvider.Logout | contexts/AuthContext.tsx:121-128 | clears both the stored record and the user; a removal that throws changes nothing |
| AuthContext.CredentialEmailsAreLowercase | contexts/AuthContext.tsx:26-49 | the three credential emails are their own lower case |
| AuthContext.CredentialEmailsDiffer | contexts/AuthContext.tsx:26-49 | the three credential emails are pairwise distinct |
| AuthContext.EmailIdentifiesCredential | contexts/AuthContext.tsx:84-100 | an email matches at most one of the three credentials |
| AuthContext.GuestForAnyUserType | contexts/AuthContext.tsx:84-89 | the guest email, in any case, with "000000" signs in the guest for every requested type, including none, and the guest's type is citizen |
| AuthContext.EmailCaseIgnored | contexts/AuthContext.tsx:100 | two emails that lower alike give the same login outcome |
| AuthContext.OtpExact | contexts/AuthContext.tsx:84-101 | an OTP other than the three credential OTPs never signs anyone in |
| AuthContext.UnknownUserTypeRejected | contexts/AuthContext.tsx:92-97 | a null or unknown user type admits nobody but the guest |
| AuthContext.SuccessIsKnownUser | contexts/AuthContext.tsx:84-108 | every successful login signs in one of the three known users, with that user's OTP and, for a test user, that user's type |
| AuthContext.CrossRoleRejected | contexts/AuthContext.tsx:92-101 | the admin email never signs in as citizen, and the citizen email never as admin |
| AuthContext.TestCredentialsSucceed | contexts/AuthContext.tsx:100-106 | each test pair, its email in any case, signs in its own user for its own type |
| UpdateItem.Bucket | components/shared/UpdateItem.tsx:46-61 | minutes below an hour, hours from an hour to below a day, days from a day on; the count is the floor of the difference in that unit, negative differences included |
| UpdateItem.FormatTimeAgo | components/shared/UpdateItem.tsx:54-60 | the label is at least two characters and ends with the letter of the bucket's unit; `FormatTimeAgoRoundTrip` shows it reads back as the bucket |
| UpdateItem.FormatTimeAgoRoundTrip | components/shared/UpdateItem.tsx:54-60 | the label reads back as the count and unit it was made from |
| UpdateItem.BucketRanges | components/shared/UpdateItem.tsx:50-57 | for a past update, minutes run 0..59, hours 1..23 and days from 1 |
| UpdateItem.FutureIsNegativeMinutes | components/shared/UpdateItem.tsx:49-55 | a timestamp in the future falls in the minutes branch with a negative count |
| UpdateItem.BucketBoundaries | components/shared/UpdateItem.tsx:50-59 | 59 999 ms gives 0 m, 60 000 ms gives 1 m, 3 599 999 ms gives 59 m, 3 600 000 ms gives 1 h, 86 399 999 ms gives 23 h and 86 400 000 ms gives 1 d |
| UpdateItem.IconForType | components/shared/UpdateItem.tsx:31-44 | the comment, tool and gear icons belong exactly to 'comment', 'status_change' and 'report_submitted' |
| UpdateItem.InProgressLooksResolved | components/shared/UpdateItem.tsx:41-42 | 'in_progress' and every unnamed type share the 'resolved' check icon |
| PhotoPicker.ExtractLocationFromExif | components/shared/AutoLocationPhotoPicker.tsx:202-226 | EXIF yields a location exactly when it is present and both GPS fields are non-NaN numbers; the location carries those coordinates, the current time and no address |
| PhotoPicker.HasExifLocation | components/shared/AutoLocationPhotoPicker.tsx:220-226 | EXIF is present and both GPS fields are numbers other than NaN; `ExtractIffValid` ties it to extraction |
| PhotoPicker.CameraLocation | components/shared/AutoLocationPhotoPicker.tsx:95-98 | the camera path keeps the live fix when there is one, and otherwise uses the EXIF location |
| PhotoPicker.GalleryLocation | components/shared/AutoLocationPhotoPicker.tsx:159-163 | the gallery path keeps valid EXIF coordinates; otherwise it uses the live fix with auto-location on, and nothing with it off |
| PhotoPicker.TagLocation | components/shared/AutoLocationPhotoPicker.tsx:94-163 | a photo's location is always either the live fix or the EXIF location; it has none exactly when the EXIF is not valid and either there is no live fix or, on the gallery path, auto-location is off |
| PhotoPicker.MakePhoto | components/shared/AutoLocationPhotoPicker.tsx:100-107 | a photo record carries the asset's uri, its source, the chosen location and the time, and `hasAutoLocation` holds exactly when a location is attached |
| PhotoPicker.CaptureResult | components/shared/AutoLocationPhotoPicker.tsx:65-199 | a photo is added exactly on a granted permission and an uncancelled, non-empty pick, and it is the first asset tagged by its path's precedence; a denied permission always ends as "permission denied"; a cancelled or empty pick after a grant ends as "nothing picked"; a failed permission request or a failed picker ends as "failed" |
| PhotoPicker.AutoLocationPhotoPicker.constructor | components/shared/AutoLocationPhotoPicker.tsx:27-34 | `maxPhotos` defaults to 3 and `autoLocationEnabled` to true, so by default the add button shows at two photos and hides at three; the picker starts out not capturing |
| PhotoPicker.AutoLocationPhotoPicker.ShowAddButton | components/shared/AutoLocationPhotoPicker.tsx:51 | the add button is rendered while the picker holds fewer photos than its own `maxPhotos` |
| PhotoPicker.AutoLocationPhotoPicker.AddButtonEnabled | components/shared/AutoLocationPhotoPicker.tsx:258-260 | the add button accepts presses exactly while no capture is under way |
| PhotoPicker.AutoLocationPhotoPicker.Mount | components/shared/AutoLocationPhotoPicker.tsx:37-41 | with auto-location on, mounting starts the watch, with the handle, live subscriptions and platform calls of `StartWatchingLocation`; with it off the service is untouched |
| PhotoPicker.AutoLocationPhotoPicker.Unmount | components/shared/AutoLocationPhotoPicker.tsx:43-48 | with auto-location on, unmounting leaves no watch handle, and a held subscription is removed with one platform call, so one fewer is live; with it off the service is untouched |
| PhotoPicker.AutoLocationPhotoPicker.TakePhotoWithCamera | components/shared/AutoLocationPhotoPicker.tsx:65-127 | the outcome is `CaptureResult` for the camera path; the live fix is fetched, through the cache whose age is judged by the clock read before the camera opens, only on granted permission with auto-location on; the photo, if any, is handed to `onAddPhoto`; capturing is off on every exit |
| PhotoPicker.AutoLocationPhotoPicker.SelectPhotoFromGallery | components/shared/AutoLocationPhotoPicker.tsx:129-199 | as the camera path, with the gallery path's precedence |
| PhotoPicker.AutoLocationPhotoPicker.PickedPhoto | components/shared/AutoLocationPhotoPicker.tsx:91-109 | the first asset of an uncancelled pick is tagged and handed to `onAddPhoto`; a cancelled or empty pick adds nothing |
| PhotoPicker.ExtractIffValid | components/shared/AutoLocationPhotoPicker.tsx:203-205 | extraction succeeds exactly when `hasExifLocation` holds |
| PhotoPicker.PrecedenceDiffersByPath | components/shared/AutoLocationPhotoPicker.tsx:95-98 | with both a live fix and valid EXIF, the camera keeps the live fix and the gallery keeps the EXIF coordinates |
| PhotoPicker.GalleryFallbackNeedsAutoLocation | components/shared/AutoLocationPhotoPicker.tsx:161-163 | without valid EXIF, the gallery falls back to the live fix only with auto-location on |
| PhotoPicker.AddedPhotoFlagged | components/shared/AutoLocationPhotoPicker.tsx:104-105 | every added photo, from either path, is flagged exactly when it carries a location |
| PhotoPicker.NoPhotoWithoutGrantAndPick | components/shared/AutoLocationPhotoPicker.tsx:70-74 | a permission that was not granted, a cancelled picker or an empty pick adds no photo |
| PhotoPicker.DefaultLimitIsThreePhotos | components/shared/AutoLocationPhotoPicker.tsx:31-51 | with the default limit the add button shows for at most two photos and hides from the third on |
| Onboarding.Dots | app/onboarding.tsx:55-63 | there is one pagination dot per slide |
| Onboarding.IsLastSlide | app/onboarding.tsx:71 | the current slide is the last when the index is the slide count minus one |
| Onboarding.ShowsSkip | app/onboarding.tsx:78-82 | Skip is shown off the last slide |
| Onboarding.ShowsReportAnonymously | app/onboarding.tsx:114-118 | "Report Anonymously" is shown off the last slide |
| Onboarding.ShowsGetStarted | app/onboarding.tsx:104-107 | Get Started is shown on the last slide |
| Onboarding.ShowsNext | app/onboarding.tsx:108-112 | Next is shown off the last slide; `ButtonsExclusive` relates the four |
| Onboarding.ExactlyOneActiveDot | app/onboarding.tsx:55-63 | on a valid index exactly one dot is active, the one at the current index |
| Onboarding.ButtonsExclusive | app/onboarding.tsx:71-118 | each screen shows exactly one of Next and Get Started, and shows Skip and "Report Anonymously" exactly when it shows Next |
| Onboarding.OnboardingScreen.constructor | app/onboarding.tsx:19 | the index starts at 0 |
| Onboarding.OnboardingScreen.HandleNext | app/onboarding.tsx:23-31 | below the last slide Next advances the index by one without navigating; on the last slide it keeps the index and navigates to '/auth-selection'; a valid index stays valid |
| Onboarding.OnboardingScreen.HandleSkip | app/onboarding.tsx:33-35 | Skip navigates to '/auth-selection' |
| Onboarding.OnboardingScreen.HandleGetStarted | app/onboarding.tsx:37-40 | Get Started navigates to '/auth-selection' |
| Onboarding.OnboardingScreen.OnViewableItemsChanged | app/onboarding.tsx:42-46 | the first viewable slide becomes current; an empty list changes nothing; in-range indices keep the index valid |
| AuthComponents.OtpSlots | components/auth/AuthComponents.tsx:76-79 | the dashed display always has exactly six slots |
| AuthComponents.OtpFieldText | components/auth/AuthComponents.tsx:88 | the OTP field keeps at most six characters, and they are the first ones typed |
| AuthComponents.OtpSlotsArePadded | components/auth/AuthComponents.tsx:79 | slot i shows the i-th character of an entry of at most six characters, and a dash past its end |
| AuthComponents.OtpSlotsRoundTrip | components/auth/AuthComponents.tsx:76-79 | the characters before the first dash read back as the entry |
| AuthComponents.OtpSlotsIgnoreOverflow | components/auth/AuthComponents.tsx:76 | characters past the sixth are never displayed |
| AuthComponents.OtpFieldShownInFull | components/auth/AuthComponents.tsx:76-110 | whatever dash-free text is typed, the field's text is shown in full by the six slots |
| AuthComponents.PrimaryButtonFires | components/auth/AuthComponents.tsx:124-133 | a press reaches the handler exactly when the button is not disabled; `disabled` defaults to false |
| LoginScreens.SubmitAttempt | app/citizen-login.tsx:25-48 | a submit is rejected exactly when the guard fails; it signs in exactly when the guard passes and the login with the trimmed email and OTP succeeds |
| LoginScreens.CitizenGuardPasses | app/citizen-login.tsx:26 | the citizen guard accepts a phone/email that is not blank after trimming and an OTP of at least six characters |
| LoginScreens.CitizenContinueDisabled | app/citizen-login.tsx:125 | Continue is disabled on an empty, untrimmed phone/email, an OTP under six characters, or while loading |
| LoginScreens.AdminGuardPasses | app/admin-login.tsx:26 | the admin guard accepts an email and an OTP that are both not blank after trimming |
| LoginScreens.AdminLoginDisabled | app/admin-login.tsx:94 | Login is disabled on an empty, untrimmed email or OTP, or while loading |
| LoginScreens.CitizenLoginScreen.constructor | app/citizen-login.tsx:19-21 | the fields start empty and not loading |
| LoginScreens.CitizenLoginScreen.SetOtp | components/auth/AuthComponents.tsx:83-88 | the OTP held is what the six-character field keeps |
| LoginScreens.CitizenLoginScreen.SetPhoneEmail | app/citizen-login.tsx:103-107 | the phone/email held is what was typed |
| LoginScreens.CitizenLoginScreen.HandleContinue | app/citizen-login.tsx:25-48 | the outcome is `SubmitAttempt` with a citizen login; it navigates to '/(tabs)' only on success; on success the user is the one signed in with the trimmed input; otherwise the auth state is unchanged; loading is off after every attempt that passed the guard |
| LoginScreens.CitizenLoginScreen.HandleContinueAsGuest | app/citizen-login.tsx:56-75 | the guest login succeeds exactly when storage is writable and signs in the guest; the screen navigates to '/(tabs)' either way and ends not loading |
| LoginScreens.CitizenLoginScreen.HandleGoogleSignIn | app/citizen-login.tsx:50-54 | navigates to '/(tabs)' |
| LoginScreens.AdminLoginScreen.constructor | app/admin-login.tsx:19-21 | the fields start empty and not loading |
| LoginScreens.AdminLoginScreen.SetOtp | components/auth/AuthComponents.tsx:104-110 | the OTP held is what the six-character field keeps |
| LoginScreens.AdminLoginScreen.SetEmail | app/admin-login.tsx:78-83 | the email held is what was typed |
| LoginScreens.AdminLoginScreen.HandleLogin | app/admin-login.tsx:25-48 | the outcome is `SubmitAttempt` with an admin login; it navigates to '/(tabs)' only on success; on success the user is the one signed in with the trimmed input; otherwise the auth state is unchanged; loading is off after every attempt that passed the guard |
| LoginScreens.AdminLoginScreen.HandleGoogleSignIn | app/admin-login.tsx:50-53 | nothing changes and nothing navigates |
| LoginScreens.CitizenGuardImpliesButtonEnabled | app/citizen-login.tsx:26 | input that passes the citizen guard finds Continue enabled while nothing is loading |
| LoginScreens.CitizenBlankEmailPassesButtonNotGuard | app/citizen-login.tsx:125 | a blank phone/email enables Continue, since the button tests the untrimmed text, yet the guard rejects it |
| LoginScreens.CitizenPressNeedsFullOtp | app/citizen-login.tsx:122-126 | a press on Continue reaches the handler only with a non-empty phone/email, at least six OTP characters and no login under way |
| LoginScreens.AdminGuardImpliesButtonEnabled | app/admin-login.tsx:26 | input that passes the admin guard finds Login enabled while nothing is loading |
| LoginScreens.AdminPressNeedsEmailAndOtp | app/admin-login.tsx:91-95 | a press on Login reaches the handler only with a non-empty email and OTP and no login under way |
| LoginScreens.AdminGuardAcceptsShortOtp | app/admin-login.tsx:26-29 | the admin guard has no OTP length check: a one-digit OTP passes it and then fails the login |
| LoginScreens.CitizenScreenSignsInTestCitizen | app/citizen-login.tsx:33 | the citizen test pair, its email in any case and padded with blanks, signs in the test citizen |
| LoginScreens.AdminScreenAdmitsGuestAsCitizen | app/admin-login.tsx:33 | the guest pair typed into the admin screen signs in the guest, whose user type is citizen |

## Left out

- Persistent storage is a plain field. The `loadUserData` read and its `JSON.parse` are I/O and are not modelled. A storage write or removal that throws is modelled as a `storageWritable` parameter, and a failed write fails the login.
- Platform services are replaced by the outcomes they report: permission prompts, GPS, reverse geocoding, `hasServicesEnabledAsync`, the image picker and watch registration. Alerts, console output and the `requestPermissions` settings prompt are left out.
- Location.LocationService.GetCurrentLocation: `requestPermissions` is folded into one boolean. A permission request that throws is the same as a denial.
- Location.FormatForDisplay: shows coordinates as the two reals, because the `toFixed(6)` rendering is floating-point formatting.
- Coordinates are `real`. NaN is modelled and rejected as in the source. Infinite EXIF values are not modelled; `typeof` would accept an infinite GPS field, and the model has no infinite value.
- Clocks are integer parameters: `Date.now()` and `new Date(timestamp)` parsing. An unparsable timestamp (NaN) is not modelled.
- PhotoPicker.AutoLocationPhotoPicker.TakePhotoWithCamera: takes two clock values. `fetchNow` is the read that judges the cache's age before the camera opens. `now` stands for the reads made after the pick: the EXIF stamp, the photo id and the photo timestamp. These three come in immediate succession and are taken as one value.
- PhotoPicker.AutoLocationPhotoPicker.SelectPhotoFromGallery: takes the same two clock values as the camera path, for the same reasons.
- Text.LowerChar: models `toLowerCase` on ASCII letters only, because Unicode case mapping is outside the model.
- Text.NatToDecimal: renders every integer in plain decimal. JavaScript switches to exponent notation once the rendered count reaches 10^21. Dates lie within ±8.64 × 10^15 ms of the epoch, so a difference of two dates gives a count whose magnitude is at most about 3 × 10^11, far below that threshold.
- Strings are sequences of code points. The source's `length`, `maxLength={6}` and `value[index]` count UTF-16 code units. The two differ only for characters outside the Basic Multilingual Plane, which the model treats as one character each.
- Races between a watch callback and a one-shot fetch are not modelled. Each is an atomic method.
- PhotoPicker.AutoLocationPhotoPicker.AddButtonEnabled: every capture method is atomic and ends with capturing off. So the disabled add button during a capture is never an observable state, and a press during a capture is not modelled.
- `getInstance` is not modelled; there is a single service object.
- The screens' `catch` branches around `login` are not modelled, because `login` catches everything itself and never throws.
- Location.LocationService.OnWatchUpdate: a watch update is only possible while a subscription is live. Callbacks of an old subscription that a second start overwrote are not told apart from the current one.
- `onRemovePhoto` and the photo list itself belong to the caller. The picker's `photos` prop appears only as the count given to `ShowAddButton`.
- Styling, icons, illustrations, map components, tabs layout and the other presentational files are not part of this model.
