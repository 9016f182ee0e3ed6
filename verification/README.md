# Neon Horizon hotel-booking front-end: the list and paging logic

The Neon Horizon front-end is a set of page components over in-memory mock
data. Almost all of it is presentation. This project models the few parts
that compute something and proves what they guarantee:

- **Results pager** (`ResultsGrid`). It shows six properties per page. It
  computes the page slice, the page count and the "Showing results a-b of n"
  header. It decides which page numbers and ellipses the pagination bar
  shows. Previous and Next only move the current page while it stays in range.
- **Booking calendar** (`BookingCalendar`). It finds the bookings that fall
  on a calendar day, filters the invoice list by status, picks the badge
  colour for each status and builds the list for the selected day.
- **Payment gateways** (`PaymentIntegration`). It switches a gateway on or
  off by id and deletes a gateway by id. Gateways and transactions share one
  status classification (colour and icon). The overview cards count the
  completed transactions.
- **Website content editor** (`WebsiteCustomization`). It deletes blog posts
  and testimonials by id, marks contact messages read, edits one site
  setting per input and runs the open/close logic of the homepage-block edit
  dialog.

`lists.dfy` holds `Filter`, the model of `Array.prototype.filter`, which
every delete handler and every status filter uses. It also holds
`IsSubsequence`, the "kept in the original order" relation. List updates
that use `map` are modelled as recursive functions over the list.

State that a component keeps with `useState` and replaces from its handlers
is a class field. A handler is a method that sets the field to a function
of its old value. What the handler guarantees is proved about that
function:

- `ResultsGridView.currentPage`
- the gateway and transaction lists of `PaymentIntegrationView`
- the posts, testimonials, messages, settings and dialog state of
  `WebsiteCustomizationView`

Modelling choices:

- Dates are whole day numbers (`Day = int`), so date-fns `isSameDay` is
  equality of day numbers.
- `slice` follows ECMAScript: a negative bound counts back from the end and
  every bound is clamped to the list. So the page slice is defined for every
  page number.
- `Array.from({ length: rating })` turns a negative length into zero.

Two facts about the grid's code shape the model:

- `handlePageChange` (src/components/ResultsGrid.tsx:56-60) does no
  clamping. The page stays in range only because Previous and Next are
  guarded and page links exist only for real pages. `HandlePageChange` sets
  whatever page it is given, and the `Valid` invariant of `ResultsGridView`
  is kept by the guarded callers.
- The search parameters passed to the grid are ignored
  (src/components/ResultsGrid.tsx:34-42). The chosen sort order is never
  applied (src/components/ResultsGrid.tsx:43). The model takes only the
  property list.

## Model

| member | source | states |
|---|---|---|
| ResultsGrid.TotalPages | src/components/ResultsGrid.tsx:54 | `Math.ceil(n/6)`: the least number of six-item pages that holds n items; zero pages exactly for an empty list |
| ResultsGrid.PageSlice | src/components/ResultsGrid.tsx:45-53 | page p ≥ 1 is the run of items from index (p-1)*6 up to min(p*6, n), in list order; no page, whatever its number, holds more than six items; each of pages 1..totalPages holds at least one |
| ResultsGrid.PagesUpTo | src/components/ResultsGrid.tsx:48-54 | the slices of pages 1..k put back to back are exactly the first min(6k, n) items |
| ResultsGrid.PagesReassemble | src/components/ResultsGrid.tsx:48-54 | concatenating the slices of pages 1..totalPages gives back the whole list |
| ResultsGrid.ShowingRange | src/components/ResultsGrid.tsx:95-98 | the header numbers a = (p-1)*6+1 and b = min(p*6, n), for every page number; on a real page 1 ≤ a ≤ b ≤ n |
| ResultsGrid.EmptyListingHeader | src/components/ResultsGrid.tsx:95-98 | an empty listing has no pages and no pagination bar; its page 1 shows nothing under the header "Showing results 1-0 of 0" |
| ResultsGrid.HeaderMatchesPage | src/components/ResultsGrid.tsx:95-98 | the header's a..b are the one-based positions of exactly the items on the grid, and b-a+1 is their count |
| ResultsGrid.PaginationVisible | src/components/ResultsGrid.tsx:154 | the pagination bar is rendered, for n > 6, exactly when there are at least two pages |
| ResultsGrid.SlotFor | src/components/ResultsGrid.tsx:170-213 | page k shows as a number iff k = 1, k = totalPages or \|k - current\| ≤ 1; an ellipsis appears only at slot 2 with current > 3 or at slot totalPages-1 with current < totalPages-2 |
| ResultsGrid.HiddenPageBehindEllipsis | src/components/ResultsGrid.tsx:170-213 | with the current page in range, every page that is not shown lies more than one from the current page, and an ellipsis is rendered on its side |
| ResultsGrid.NinePropertiesTwoPages | src/components/ResultsGrid.tsx:235-389 | the nine mock properties make two pages, of six and three items, and the pagination bar is shown |
| ResultsGrid.ResultsGridView.constructor | src/components/ResultsGrid.tsx:44 | the grid starts on page 1, which satisfies the page-range invariant |
| ResultsGrid.ResultsGridView.CurrentProperties | src/components/ResultsGrid.tsx:48-53 | the cards shown: at most six, at least one when there are properties, the items from (p-1)*6 up to min(p*6, n) |
| ResultsGrid.ResultsGridView.HandlePageChange | src/components/ResultsGrid.tsx:56-60 | sets the current page to the given number, without clamping |
| ResultsGrid.ResultsGridView.ClickPrevious | src/components/ResultsGrid.tsx:158-161 | moves back one page only when the current page is past 1, and so keeps the page in range |
| ResultsGrid.ResultsGridView.ClickNext | src/components/ResultsGrid.tsx:216-219 | moves on one page only when the current page is before totalPages, and so keeps the page in range |
| ResultsGrid.ResultsGridView.ClickPageLink | src/components/ResultsGrid.tsx:177-191 | a page link, which exists only for a page shown as a number, moves to that page and keeps the page in range |
| BookingCalendar.BookingsForDate | src/components/BookingCalendar.tsx:79-86 | returns exactly the bookings whose check-in day or check-out day is the given day or whose stay spans it, in booking order, each as often as it is listed |
| BookingCalendar.FallsOnIff | src/components/BookingCalendar.tsx:82-84 | for check-in ≤ check-out a booking falls on exactly the days check-in..check-out; a reversed booking falls only on its two boundary days |
| BookingCalendar.StayDaysListed | src/components/BookingCalendar.tsx:79-86 | a listed booking is returned for every day from its check-in through its check-out |
| BookingCalendar.HasMarker | src/components/BookingCalendar.tsx:204-214 | a calendar day shows the marker dot iff some booking falls on it |
| BookingCalendar.FilteredBookings | src/components/BookingCalendar.tsx:103-106 | "all" yields the whole list; any other value yields exactly the bookings with that status, in booking order, each as often as it is listed |
| BookingCalendar.SelectedDateBookings | src/components/BookingCalendar.tsx:108-110 | empty when no date is selected; otherwise exactly the bookings of the selected day, in booking order, each as often as it is listed |
| BookingCalendar.StatusColor | src/components/BookingCalendar.tsx:88-101 | confirmed, pending, checked-in and cancelled get their own badge style; every other string gets the grey default |
| BookingCalendar.StatusColorsDistinct | src/components/BookingCalendar.tsx:88-101 | two strings share a badge style only if they are the same booking status or neither is a booking status |
| BookingCalendar.MockBookings | src/components/BookingCalendar.tsx:36-77 | the four mock bookings, each with check-in on or before check-out |
| BookingCalendar.MockTomorrow | src/components/BookingCalendar.tsx:79-86 | on the mock data, tomorrow shows bookings BK001, BK002 and BK004, in that order |
| BookingCalendar.MockConfirmed | src/components/BookingCalendar.tsx:103-106 | on the mock data, the "confirmed" filter yields BK001 and BK003, in that order |
| PaymentIntegration.ToggledStatus | src/components/PaymentIntegration.tsx:216 | the new status is "active" iff the old one was not; otherwise it is "inactive" |
| PaymentIntegration.ToggleGateways | src/components/PaymentIntegration.tsx:210-221 | only gateways with the id change, and only in their status, whose switch flips; the length, the order and every other gateway stay the same |
| PaymentIntegration.ToggleTwice | src/components/PaymentIntegration.tsx:210-221 | toggling an id twice restores the list when that id's gateways were "active" or "inactive" |
| PaymentIntegration.ToggleTwiceFromOtherStatus | src/components/PaymentIntegration.tsx:216 | any other status is not restored: two toggles leave it "inactive" |
| PaymentIntegration.DeleteGateway | src/components/PaymentIntegration.tsx:223-227 | removes every gateway with the id and keeps each other one, as often as it occurs and in order; the list is unchanged iff the id is unknown |
| PaymentIntegration.DeleteTwice | src/components/PaymentIntegration.tsx:223-227 | deleting an id twice equals deleting it once |
| PaymentIntegration.StatusColor | src/components/PaymentIntegration.tsx:173-186 | green for active/completed, yellow for pending, red for inactive/failed, grey for every other string |
| PaymentIntegration.StatusIcon | src/components/PaymentIntegration.tsx:188-201 | check for active/completed, clock for pending, cross for inactive/failed, warning for every other string |
| PaymentIntegration.ColorAndIconAgree | src/components/PaymentIntegration.tsx:173-201 | two statuses share a badge colour iff they share an icon: both classify statuses the same way |
| PaymentIntegration.CompletedTransactions | src/components/PaymentIntegration.tsx:229-232 | the number of transactions whose status is "completed", counted one by one; it never exceeds the total, is zero iff no transaction is completed and equals the total iff all are |
| PaymentIntegration.MockGateways | src/components/PaymentIntegration.tsx:58-127 | the three gateways the screen starts with |
| PaymentIntegration.MockTransactions | src/components/PaymentIntegration.tsx:130-171 | the three transactions the screen starts with |
| PaymentIntegration.MockScreen | src/components/PaymentIntegration.tsx:210-232 | on the mock data, switching Stripe on leaves every gateway's switch on, and some but not all transactions are completed |
| PaymentIntegration.PaymentIntegrationView.constructor | src/components/PaymentIntegration.tsx:58-171 | the screen starts with the mock gateways and transactions |
| PaymentIntegration.PaymentIntegrationView.HandleToggleGateway | src/components/PaymentIntegration.tsx:210-221 | replaces the gateway list by its toggled copy; transactions unchanged |
| PaymentIntegration.PaymentIntegrationView.HandleDeleteGateway | src/components/PaymentIntegration.tsx:223-227 | replaces the gateway list by its filtered copy; transactions unchanged |
| PaymentIntegration.PaymentIntegrationView.TransactionCounts | src/components/PaymentIntegration.tsx:229-232 | the total and the completed count of the overview cards, completed ≤ total |
| WebsiteCustomization.DeleteBlogPost | src/components/WebsiteCustomization.tsx:204-206 | removes every post with the id and keeps each other one, as often as it occurs and in order; the list is unchanged iff the id is unknown |
| WebsiteCustomization.DeleteTestimonial | src/components/WebsiteCustomization.tsx:208-212 | removes every testimonial with the id and keeps each other one, as often as it occurs and in order; the list is unchanged iff the id is unknown |
| WebsiteCustomization.DeleteTwice | src/components/WebsiteCustomization.tsx:204-212 | deleting a post or a testimonial id twice equals deleting it once |
| WebsiteCustomization.StarKeys | src/components/WebsiteCustomization.tsx:432-439 | a testimonial renders exactly `rating` stars (none for a negative rating), keyed 0..rating-1 |
| WebsiteCustomization.MarkMessageRead | src/components/WebsiteCustomization.tsx:214-220 | messages with the id get status "read" and keep every other field, and so no longer offer "Mark Read"; all other messages, the length and the order are unchanged |
| WebsiteCustomization.MarkReadTwice | src/components/WebsiteCustomization.tsx:214-220 | marking a message read twice equals marking it once |
| WebsiteCustomization.SettingsExtensional | src/components/WebsiteCustomization.tsx:109-128 | a settings record is determined by its ten input values together with the logo and the social media handles |
| WebsiteCustomization.UpdateSetting | src/components/WebsiteCustomization.tsx:569-813 | an input edit replaces exactly its own field; a policy edit replaces one policy and keeps the other two; the logo and the social handles never change |
| WebsiteCustomization.UpdateSettingLastWins | src/components/WebsiteCustomization.tsx:569-574 | two edits of one input keep only the later value; writing back the shown value changes nothing |
| WebsiteCustomization.UpdateSettingCommutes | src/components/WebsiteCustomization.tsx:773-779 | edits of two different inputs do not interfere, in either order |
| WebsiteCustomization.WebsiteCustomizationView.constructor | src/components/WebsiteCustomization.tsx:56-128 | the editor starts with the dialog closed, nothing selected and the mock content |
| WebsiteCustomization.WebsiteCustomizationView.HandleBlockEdit | src/components/WebsiteCustomization.tsx:192-195 | selects the block and opens the dialog; the content lists are untouched |
| WebsiteCustomization.WebsiteCustomizationView.HandleSaveBlock | src/components/WebsiteCustomization.tsx:197-202 | closes the dialog and clears the selection |
| WebsiteCustomization.WebsiteCustomizationView.CloseBlockDialog | src/components/WebsiteCustomization.tsx:928-931 | Cancel closes the dialog and leaves the selection as it was, from any state |
| WebsiteCustomization.WebsiteCustomizationView.DialogTitle | src/components/WebsiteCustomization.tsx:833-836 | the dialog title reads "Edit " followed by the selected block's name; while the dialog is open a block is always selected, so the title always names one |
| WebsiteCustomization.WebsiteCustomizationView.HandleDeleteBlogPost | src/components/WebsiteCustomization.tsx:204-206 | replaces the post list by `DeleteBlogPost` of it; nothing else changes |
| WebsiteCustomization.WebsiteCustomizationView.HandleDeleteTestimonial | src/components/WebsiteCustomization.tsx:208-212 | replaces the testimonial list by `DeleteTestimonial` of it; nothing else changes |
| WebsiteCustomization.WebsiteCustomizationView.HandleMarkMessageRead | src/components/WebsiteCustomization.tsx:214-220 | replaces the message list by `MarkMessageRead` of it; nothing else changes |
| WebsiteCustomization.WebsiteCustomizationView.EditSetting | src/components/WebsiteCustomization.tsx:569-574 | replaces the settings by `UpdateSetting` of them; nothing else changes |

## Left out

- Rendering: the JSX layout, the Tailwind classes (except the status badge classes), the framer-motion variants and delays, and the loading skeleton of the grid.
- Floating-point values. These are the property `rating`, the gateway `fees`, the transaction `amount` and `fees`, `totalRevenue` and `totalFees` (with their rough KHR/4000 conversion) and `formatCurrency`. None of them feeds the modelled logic. Property `price` is kept as an integer, as in the mock data.
- A fractional testimonial `rating`. Ratings are whole numbers, as in the mock data, so the star row never has to round one down.
- Real time. `new Date()`, time zones, times of day and date-fns `format`/`addDays` are not modelled. The mock bookings take "today" as a parameter. In the source, a check-in stamped with the current time compares later than the midnight date the calendar passes in. That is why `isSameDay` is tested on its own. With whole days that distinction disappears.
- Browser and console effects: `window.scrollTo` in `handlePageChange` and `console.log` in `handleSaveBlock`.
- Tab switching (`activeTab`), the calendar's `viewMode`, the gateway "Configure" selection (`selectedGateway`) and the Add Gateway dialog (`isAddingGateway`). Each only stores a UI choice, and adding a gateway creates nothing.
- The content of a homepage block and the fields of the block edit dialog. Those inputs are uncontrolled (`defaultValue`), so what is typed there is never stored. `handleSaveBlock` receives the unchanged selected block.
- Dismissing the block dialog by Escape or an outside click calls `setIsEditingBlock(false)` through `onOpenChange`. It is modelled by `CloseBlockDialog`, the same method as the Cancel button. The dialog has no trigger that would call it with `true`.
- The logo upload and the social media handles have no input that updates the settings. The model keeps them unchanged.
- `ResultsGridView`: its listing is fixed when the grid is created. In the code, `properties` is a prop (src/components/ResultsGrid.tsx:39-42), and `currentPage` is not reset when the prop changes. A shorter listing would leave the page past `totalPages`. The invariant `Valid` does not cover that case. The only caller (src/components/home.tsx:174) passes no `properties`, so the grid always shows the nine mock listings and the case does not arise in this program.
- The search form, the home view, the property card and the reports dashboard: forwarding and static content with no logic of their own.
- Persistence: the state lives only as long as the component.
