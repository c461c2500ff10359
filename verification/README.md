# CRM frontend state layer, in Dafny

This project models the client-side state layer of a CRM web frontend, together with the page
helpers that sit on top of it:

- The Redux containers ("slices"): sales leads, attendance, designer projects, the client
  dashboard, clients, users, admin statistics, activity logs, the session, and admin projects.
  Each slice is a `State` datatype and an `Action` datatype, with one constructor per operation.
  Asynchronous operations carry their `Pending`, `Fulfilled` or `Rejected` phase. Each slice has a
  total `Reduce` function.
- The route guard, which redirects to the login page or the unauthorized page, or renders the
  nested route.
- The image URL builder for the image host.
- The pure logic of the pages:
  - lead and client filters, and the employee filter;
  - the sales overview figures and top performers;
  - the lead assignment dialog;
  - role and status labels;
  - the project editor form;
  - the designer's update form;
  - the attendance table, its save and its CSV export;
  - the session-length label;
  - the monthly chart join.

Shared pieces:

- `Common`: optional values, phases, and the JavaScript `||` fallbacks.
- `Text`: ASCII case mapping, substring search, trim, split/join, decimal rendering, and the
  capitalising label formatter.
- `Lists`: filter, find-index replacement, a stable sort by an integer key, toggle, and sums.
- `Entities`: the records the containers hold.

Clocks, the storage entry of the token, locale formatting and network results are parameters of
the functions that need them.

Two behaviours of the code are easy to miss:

- A failed profile fetch after a restart keeps the stored token. `authSlice.js` has no
  rejected case for the profile fetch, so the token and the user stay as they were
  (`AuthSlice.ProfileCases`).
- A new pending state does not always clear the previous error. Only some pending cases do:
  - in `salesSlice.js`, only the lead fetch and lead creation (`SalesSlice.PendingCases`);
  - in `authSlice.js`, `activityLogSlice.js` and `projectSlice.js`, no pending case clears it
    (`AuthSlice.PendingKeepsError`, `ActivityLogSlice.ErrorIsSticky`, `ProjectSlice.FetchCases`).

## Model

| member | source | states |
|---|---|---|
| SalesSlice.MyLeadsParams | src/features/lead/salesSlice.js:10-14 | one query pair per truthy filter, carrying its value; every truthy filter is present; pairs come in the order status, category, priority, search |
| SalesSlice.ParamsOfOrdered | src/features/lead/salesSlice.js:10-14 | keys appended in increasing rank give pairs in increasing rank, so skipping falsy filters keeps the order |
| SalesSlice.ParamsOfCover | src/features/lead/salesSlice.js:10-14 | each listed key whose filter is truthy gets its pair |
| SalesSlice.ParamsOfSound | src/features/lead/salesSlice.js:10-14 | every pair is a listed key whose filter is truthy, sent with that filter's value |
| SalesSlice.FetchMyLeadsIdempotent | src/features/lead/salesSlice.js:240-243 | the lead list is replaced wholesale, so applying the same response twice equals applying it once |
| SalesSlice.CreateLeadPrepends | src/features/lead/salesSlice.js:293-297 | a created lead goes first and the length grows by one; every old lead shifts one place back; the success message is set; the admin list is untouched |
| SalesSlice.CreateTwiceOrder | src/features/lead/salesSlice.js:293-297 | creating A and then B leaves B first and A second |
| SalesSlice.UpdateLeadInPlace | src/features/lead/salesSlice.js:307-315 | the first lead with the id is replaced in place and the length is kept; no match leaves the list as it was; the focused lead is set even when the id is absent |
| SalesSlice.IdsStayUnique | src/features/lead/salesSlice.js:293-375 | with one lead per id, updates, activities and assignments keep one lead per id; a created lead keeps it exactly when its id is new, since the prepend does not check |
| SalesSlice.AddActivityKeepsCurrentLead | src/features/lead/salesSlice.js:325-332 | the lead is replaced by id in `myLeads` while the focused lead stays as it was |
| SalesSlice.AssignLeadOnlyAllLeads | src/features/lead/salesSlice.js:368-375 | an assignment replaces the lead by id only in the admin list; `myLeads` is unchanged |
| SalesSlice.PendingCases | src/features/lead/salesSlice.js:236-405 | a pending case raises only its own flag and keeps all data; it clears the error only for the lead fetch and lead creation |
| SalesSlice.RejectedCases | src/features/lead/salesSlice.js:236-405 | a rejected case lowers only its own flag, stores `payload?.message`, and keeps every collection, the focused lead and the success message |
| AttendanceSlice.StatusCountsBounded | src/features/attendance/attendanceSlice.js:100-107 | the five status counts add up to at most the number of records |
| AttendanceSlice.StatusCountsExhaustive | src/features/attendance/attendanceSlice.js:100-107 | when every record has one of the five statuses, the counts add up to exactly the total |
| AttendanceSlice.Average | src/features/attendance/attendanceSlice.js:108-111 | the average is 0 with no records, and otherwise times the count gives the hour total |
| AttendanceSlice.MergeFiltersLaws | src/features/attendance/attendanceSlice.js:166-168 | setting filters is a patch: setting the same payload twice is setting it once, an empty payload changes nothing, and two payloads in a row act as one in which the later key (even a null one) wins |
| AttendanceSlice.FiltersClearAndReset | src/features/attendance/attendanceSlice.js:166-180 | clearing after any `setFilters` gives the initial filters; a reset gives the initial state; an empty patch changes nothing |
| AttendanceSlice.UpdateLocalMerges | src/features/attendance/attendanceSlice.js:182-192 | the patch is merged into the first today entry with its id, keeping the fields it lacks; an absent id changes nothing; the other lists are untouched |
| AttendanceSlice.MarkAttendanceFulfilled | src/features/attendance/attendanceSlice.js:201-218 | the record goes first in the record list; a record dated today replaces the same user's today entry in place, or is appended; other dates leave the today list alone |
| AttendanceSlice.RawIdUsersCollide | src/features/attendance/attendanceSlice.js:209-213 | records whose user is a bare id both have the key `undefined`, so marking one replaces the other's today entry |
| AttendanceSlice.UpdateAttendanceInPlace | src/features/attendance/attendanceSlice.js:243-258 | the first record with the id is replaced in each of the record, today and monthly lists; the other today entries, the selection, the statistics and the filters are kept |
| AttendanceSlice.IdsStayUnique | src/features/attendance/attendanceSlice.js:181-258 | with one record per id, an update keeps that in all three lists and a local edit in today's list; a new mark keeps it in the record list exactly when its id is new |
| AttendanceSlice.BulkApplyOrder | src/features/attendance/attendanceSlice.js:316-319 | after the loop the records stand reversed in front of the record list and in order behind the today list |
| AttendanceSlice.BulkMarkFulfilled | src/features/attendance/attendanceSlice.js:312-320 | a bulk mark adds all n records to both lists without de-duplication and leaves the monthly list alone |
| AttendanceSlice.PendingAndRejected | src/features/attendance/attendanceSlice.js:197-324 | the fallbacks in the operations' own words: a bare rejection of a mark, a bulk mark or a statistics fetch reads as that operation's failure, and the other data stays |
| AttendanceSlice.PendingCases | src/features/attendance/attendanceSlice.js:197-324 | each of the seven operations' pending case raises the flag, clears the error and leaves every record, filter and statistic as it was |
| AttendanceSlice.RejectedCases | src/features/attendance/attendanceSlice.js:197-324 | each of the seven operations' rejection lowers the flag, keeps all data, and stores a non-empty error: the body's message when it is truthy, else that operation's own fallback |
| DesignerProjectSlice.FetchDetailsResult | src/features/designerProjects/designerProjectSlice.js:19-36 | the details fetch succeeds only when both requests succeed, and then carries both results; otherwise it rejects with the first failure's body or the fallback |
| DesignerProjectSlice.PrepareUpdate | src/features/designerProjects/designerProjectSlice.js:43-85 | one refused upload rejects the operation with the fallback; otherwise the body is the draft with type `development_update` and the uploaded files in image order |
| DesignerProjectSlice.MergeFiltersLaws | src/features/designerProjects/designerProjectSlice.js:136-138 | setting filters is a patch: the same payload twice acts once, an empty payload changes nothing, and two payloads in a row act as one in which the later key wins |
| DesignerProjectSlice.PriorityRank | src/features/designerProjects/designerProjectSlice.js:258 | the priority order used by the sort: urgent 0, high 1, medium 2, low 3, each rank in 0..3 belonging to exactly one priority |
| DesignerProjectSlice.SelectFilteredProjects | src/features/designerProjects/designerProjectSlice.js:239-265 | the result holds each project passing the truthy filters exactly as often as the container does, and no others; it is sorted ascending by deadline or rank, or newest first, and keeps list order for any other `sortBy` |
| DesignerProjectSlice.SelectorIsStable | src/features/designerProjects/designerProjectSlice.js:255-262 | projects that tie on the sort key keep their relative order |
| DesignerProjectSlice.NoFilterKeepsAll | src/features/designerProjects/designerProjectSlice.js:244-252 | with no truthy filter the selector returns a permutation of the container's projects |
| DesignerProjectSlice.StatusUpdateInPlace | src/features/designerProjects/designerProjectSlice.js:196-212 | the project is replaced by id in the list, and as the open project only when the ids match |
| DesignerProjectSlice.IdsStayUnique | src/features/designerProjects/designerProjectSlice.js:196-212 | a status change keeps one project per id in the list |
| DesignerProjectSlice.CreateUpdatePrepends | src/features/designerProjects/designerProjectSlice.js:181-185 | a new update goes in front of the open project's updates |
| DesignerProjectSlice.FlagsAndRejections | src/features/designerProjects/designerProjectSlice.js:148-216 | list operations drive `loading` and update operations drive `updateLoading`; each of the four rejections lowers its own flag, stores the body's message or that operation's fallback, and keeps the list, the open project and its updates |
| DesignerProjectSlice.DetailsAllOrNothing | src/features/designerProjects/designerProjectSlice.js:19-36 | opening a project (both requests, then the reducer at lines 166-174) sets the project and its updates together when both requests succeed; when either fails neither changes and a non-empty error is stored, the fallback when no response came |
| DesignerProjectSlice.ClearAndReset | src/features/designerProjects/designerProjectSlice.js:139-143 | closing the project drops it and its updates but keeps the list; a reset restores the initial state, whose order is by deadline |
| ClientDashboardSlice.PendingRaisesOwnFlag | src/features/client/clientDashboardSlice.js:144-147 | a pending case raises only its own flag, clears the error and keeps all data |
| ClientDashboardSlice.RejectedStoresMessage | src/features/client/clientDashboardSlice.js:152-155 | a rejected case lowers only its own flag and stores the rejection string |
| ClientDashboardSlice.RejectionFromResponse | src/features/client/clientDashboardSlice.js:19-29 | the rejection string is the server's message or the fetch's fallback, and it is never empty |
| ClientDashboardSlice.DetailsSetCurrentProjectOnly | src/features/client/clientDashboardSlice.js:162-165 | the details response sets only the open project; the project list is untouched |
| ClientDashboardSlice.UpdatesReplacedTogether | src/features/client/clientDashboardSlice.js:176-183 | the three parts of the update listing are replaced together |
| ClientDashboardSlice.ClearCurrentProjectScope | src/features/client/clientDashboardSlice.js:127-136 | closing resets the open project, its updates, the open update and the statistics; the list and the summary are kept |
| ClientDashboardSlice.ClearCurrentUpdateOnly | src/features/client/clientDashboardSlice.js:137-139 | only the open update is cleared |
| ClientSlice.FetchNormalizes | src/features/client/clientSlice.js:91-94 | the list is the payload if it is an array, else its `clients`, else empty |
| ClientSlice.Approved | src/features/client/clientSlice.js:118 | the appended entry is the returned client, with its id, name, e-mail, phone and flags kept, no projects and a zero project count |
| ClientSlice.ApprovalMigrates | src/features/client/clientSlice.js:115-120 | every pending entry with the id is removed and the rest are kept; the client is appended only when approved |
| ClientSlice.ApprovalDoesNotDeduplicate | src/features/client/clientSlice.js:117-119 | approving a client that is already listed adds a second entry |
| ClientSlice.IdsStayUnique | src/features/client/clientSlice.js:122-136 | with one client per id, edits and status changes keep one client per id |
| ClientSlice.ApprovalKeepsIdsUnique | src/features/client/clientSlice.js:115-120 | an approval keeps the pending list at one entry per id, and the main list exactly when the client was not listed yet or was refused |
| ClientSlice.UpdateMergesInPlace | src/features/client/clientSlice.js:123-128 | the response fields are merged into the first entry with the id; fields it lacks are kept; the length and the other entries are kept |
| ClientSlice.StatusChangeIsMerge | src/features/client/clientSlice.js:131-136 | a status change is the same merge; the new `active` flag lands on the entry |
| ClientSlice.MutationsIgnoreOtherPhases | src/features/client/clientSlice.js:115-136 | approve, update and status change have no pending or rejected case, so those phases change nothing |
| ClientSlice.SelectedClientIndependent | src/features/client/clientSlice.js:143-146 | the focused client is set and cleared without touching either list |
| ClientSlice.FetchFlags | src/features/client/clientSlice.js:101-112 | the three fetches drive separate flags; rejections store the message or the fallback and keep the list |
| UserSlice.FetchCases | src/features/user/userSlice.js:87-108 | the payload is normalised; the pending-users fetch touches only its own flag; a failed fetch keeps the list |
| UserSlice.ApprovalMigrates | src/features/user/userSlice.js:111-116 | the user leaves the pending list; an approved user is appended, so the list grows by exactly one; otherwise the list is unchanged |
| UserSlice.DoubleApprovalDuplicates | src/features/user/userSlice.js:113-115 | approving the same user twice lists them twice |
| UserSlice.IdsStayUnique | src/features/user/userSlice.js:111-124 | with one user per id, an edit keeps one user per id, an approval keeps the pending list so, and the main list exactly when the user was not listed yet or was refused |
| UserSlice.UpdateReplacesWholesale | src/features/user/userSlice.js:119-124 | the first user with the id is replaced by the response as a whole, keeping length and the other positions |
| UserSlice.MutationsIgnoreOtherPhases | src/features/user/userSlice.js:110-124 | approve and update have no pending or rejected case |
| StatsSlice.FetchStatsReplacesAggregates | src/features/stats/statsSlice.js:71-79 | the five aggregates are replaced at once and the financial report is kept |
| StatsSlice.FinancialDetailsOnly | src/features/stats/statsSlice.js:90-93 | the report response changes only the report and the flag |
| StatsSlice.SharedLoadingFlag | src/features/stats/statsSlice.js:67-89 | both fetches share one flag and each pending case clears the error; with both in flight, the first to settle lowers the flag |
| StatsSlice.RejectedKeepsData | src/features/stats/statsSlice.js:80-97 | either failed fetch keeps every aggregate and the report and stores the message or the fallback |
| StatsSlice.ClearErrorOnly | src/features/stats/statsSlice.js:60-62 | `clearError` changes only the error |
| ActivityLogSlice.LogIdLifecycle | src/features/activityLog/activityLogSlice.js:60-68 | a recorded login stores its id and clearing drops it; nothing else changes |
| ActivityLogSlice.UnhandledPhasesChangeNothing | src/features/activityLog/activityLogSlice.js:20-33 | a pending or failed login, and every phase of the logout, leave the container as it was |
| ActivityLogSlice.FetchLogsCases | src/features/activityLog/activityLogSlice.js:69-79 | pending keeps an earlier error; a response replaces the logs; a failure keeps them and stores the message |
| ActivityLogSlice.ErrorIsSticky | src/features/activityLog/activityLogSlice.js:69-75 | an error survives a later successful fetch |
| AuthSlice.LoginPersistsToken | src/features/auth/authSlice.js:13-22 | a login sets the token and the user and persists the same token, so a restart starts with it |
| AuthSlice.LogoutClearsSession | src/features/auth/authSlice.js:40-44 | logout drops the user, the token and the stored token together and keeps the flag and the error |
| AuthSlice.ProfileCases | src/features/auth/authSlice.js:24-32 | a profile response sets the user from either shape; a failed or pending profile fetch leaves the session alone |
| AuthSlice.PendingKeepsError | src/features/auth/authSlice.js:48-54 | login and register pending keep an earlier error; rejections store `payload?.message` |
| AuthSlice.LoginKeepsStaleError | src/features/auth/authSlice.js:52-54 | an error from a failed attempt survives a successful login |
| ProjectSlice.FetchCases | src/features/project/projectSlice.js:28-30 | the payload is normalised; pending keeps the error; a failure keeps the list |
| ProjectSlice.CreateAppends | src/features/project/projectSlice.js:32 | the created project is appended as returned, so the old list is the prefix |
| ProjectSlice.CreateOtherPhases | src/features/project/projectSlice.js:32 | creation has no pending or rejected case |
| ProtectedRoute.Guard | src/routes/ProtectedRoute.jsx:21-23 | login iff there is no token; unauthorized iff a loaded user's role is outside a non-empty list; otherwise the outlet |
| ProtectedRoute.FetchingRendersOutlet | src/routes/ProtectedRoute.jsx:12-23 | the profile is fetched only while the guard renders the route, never on the way to login |
| ProtectedRoute.RestartedSession | src/routes/ProtectedRoute.jsx:12-23 | after a reload from the stored token (authSlice.js:34) the route renders and the profile is fetched exactly when the stored token is truthy, otherwise login; once the profile arrives the fetching stops and the user's role decides |
| ProtectedRoute.NoTokenAlwaysLogin | src/routes/ProtectedRoute.jsx:21 | without a token, or with an empty one, the guard sends to login whatever the user and the roles |
| ProtectedRoute.EmptyRolesNeverUnauthorized | src/routes/ProtectedRoute.jsx:22 | an empty role list never redirects to the unauthorized page |
| ProtectedRoute.TokenWithoutUser | src/routes/ProtectedRoute.jsx:12-23 | with a token and no user the outlet renders and the profile is fetched; once the user is loaded, the roles decide |
| ProtectedRoute.MoreRolesMonotone | src/routes/ProtectedRoute.jsx:22 | allowing more roles never turns a rendered route into a redirect |
| Cloudinary.CloudNameNeverEmpty | src/utils/cloudinaryConfig.js:5 | the cloud name is never empty; the placeholder appears only for a missing or empty setting (or one that is the placeholder), and a name fed back as the setting comes back unchanged |
| Cloudinary.ResolveLaws | src/utils/cloudinaryConfig.js:109-115 | defaulting only fills gaps: values spelled out come back unchanged, and options resolve like none exactly when each given value is that option's default (auto, auto, fill, auto, auto) |
| Cloudinary.DefaultSegment | src/utils/cloudinaryConfig.js:109-117 | with no options the segment is `w_auto,h_auto,c_fill,q_auto,f_auto` |
| Cloudinary.UrlShape | src/utils/cloudinaryConfig.js:117 | the URL starts with the host, the cloud name and `/image/upload/`, and ends with a slash and exactly the public id |
| Cloudinary.SegmentSplitsIntoParts | src/utils/cloudinaryConfig.js:117 | when no option value holds a comma, splitting the segment at its commas gives back the five parts w_, h_, c_, q_, f_ in that order |
| Cloudinary.DistinctIdsDistinctUrls | src/utils/cloudinaryConfig.js:117 | different public ids give different URLs |
| LeadsPage.FilterLeads | src/pages/dashboard/sales/Leads.jsx:481-495 | the result is an order-preserving subsequence; every kept lead matches each select that is not `all` and the search; every lead that matches is kept, as often as it occurs |
| LeadsPage.NoFiltersKeepsAll | src/pages/dashboard/sales/Leads.jsx:481-495 | all selects `all` and an empty search give the list back |
| LeadsPage.SearchSemantics | src/pages/dashboard/sales/Leads.jsx:485-492 | with a search, a lead passing the selects is kept iff it matches the search; without a company it matches iff the lower-cased name or e-mail contains the lower-cased query, or the phone contains the lower-cased query; a name containing the query as typed always keeps the lead |
| LeadsPage.IsOverdue | src/pages/dashboard/sales/Leads.jsx:127-130 | a missing date is never overdue |
| LeadsPage.OverdueIsMonotone | src/pages/dashboard/sales/Leads.jsx:127-130 | a date is overdue iff it lies before now, and stays overdue later |
| LeadsPage.TargetPercentage | src/pages/dashboard/sales/Leads.jsx:347 | the percentage is 0 whenever the target is not positive |
| LeadsPage.AchievedIffReached | src/pages/dashboard/sales/Leads.jsx:347-348 | the card shows the target as reached iff the target is positive and met |
| SalesManagementPage.TotalConverted | src/pages/dashboard/superAdmin/SalesManagement.jsx:219 | the converted count is the number of converted leads |
| SalesManagementPage.RevenueOverConverted | src/pages/dashboard/superAdmin/SalesManagement.jsx:220-222 | the revenue sums the actual value (missing as 0) of exactly the converted leads, and is not negative when the values are not |
| SalesManagementPage.AverageConversionRate | src/pages/dashboard/superAdmin/SalesManagement.jsx:223-225 | the average is 0 with no performance rows, and otherwise times the row count gives the rate sum |
| SalesManagementPage.AverageIsPercentage | src/pages/dashboard/superAdmin/SalesManagement.jsx:223-225 | rates within 0..100 give an average within 0..100 |
| SalesManagementPage.TopPerformers | src/pages/dashboard/superAdmin/SalesManagement.jsx:268-270 | exactly min(3, n) rows, in non-increasing revenue, drawn from the performance rows without repeating any row more often than it occurs there |
| SalesManagementPage.TopPerformersDominate | src/pages/dashboard/superAdmin/SalesManagement.jsx:268-270 | a row left out of the top three earns no more than any row shown |
| SalesManagementPage.RecentLeads | src/pages/dashboard/superAdmin/SalesManagement.jsx:321 | the first min(5, n) leads in list order |
| SalesManagementPage.FilterTabLeads | src/pages/dashboard/superAdmin/SalesManagement.jsx:432-444 | an order-preserving subsequence holding exactly the leads that match the salesperson, the status and the search, each as often as it occurs |
| SalesManagementPage.TabFilterExclusions | src/pages/dashboard/superAdmin/SalesManagement.jsx:433-442 | with a salesperson chosen, unassigned leads are excluded; a lead not matching the search (which ignores the phone) is excluded |
| SalesManagementPage.InitialForm | src/pages/dashboard/superAdmin/SalesManagement.jsx:866-873 | without a lead the form is empty; with one it carries the lead's name, e-mail, phone, company and description; the estimate is present iff there is a lead whose estimate is not zero, and then it is that estimate |
| SalesManagementPage.CanAssignIff | src/pages/dashboard/superAdmin/SalesManagement.jsx:989 | the button is enabled iff a salesperson is chosen and, when creating, name, e-mail and phone are filled; a reassignment ignores the form |
| SalesManagementPage.HandleAssign | src/pages/dashboard/superAdmin/SalesManagement.jsx:875-889 | with a lead the dialog reassigns; without one it creates a lead; both carry the chosen salesperson |
| SalesManagementPage.AssignChoice | src/pages/dashboard/superAdmin/SalesManagement.jsx:875-889 | a reassignment does not depend on the form; a creation sends the whole form |
| EmployeesPage.FilterEmployees | src/pages/dashboard/superAdmin/Employees.jsx:130-138 | an order-preserving subsequence holding exactly the users that match the search, the role and the status, where `all` imposes nothing, each as often as it occurs |
| EmployeesPage.EmptySearchKeepsAll | src/pages/dashboard/superAdmin/Employees.jsx:131-137 | an empty search with both selects on `all` keeps every employee; an unknown status keeps none |
| EmployeesPage.SuperAdminLabel | src/pages/dashboard/superAdmin/Employees.jsx:109-111 | `super_admin` reads `Super Admin` |
| EmployeesPage.RoleBadgeColor | src/pages/dashboard/superAdmin/Employees.jsx:99-107 | every role outside the four listed gets the grey default |
| EmployeesPage.BadgeColorsDistinct | src/pages/dashboard/superAdmin/Employees.jsx:99-107 | each listed role has a colour no other role shares |
| EmployeesPage.EditFormFor | src/pages/dashboard/superAdmin/Employees.jsx:65-77 | the role defaults to `developer` and the salary to 0; name, e-mail, phone, address and active flag are copied; an empty joining date stays empty, a set one becomes the part of its ISO serialisation before the first `T` |
| EmployeesPage.EditFormOfCompleteUser | src/pages/dashboard/superAdmin/Employees.jsx:65-77 | a user with a role and a salary keeps both in the form, and a joining date that serialises to `dayTtime` gives `day` |
| ClientPage.FilterClients | src/pages/dashboard/superAdmin/Client.jsx:136-144 | an order-preserving subsequence holding exactly the clients matching the search (name and e-mail case-insensitively, phone as typed) and the status, each as often as it occurs |
| ClientPage.PhoneSearchIsRaw | src/pages/dashboard/superAdmin/Client.jsx:137-139 | a phone that contains the term as typed finds the client |
| ClientPage.EmptySearchKeepsAll | src/pages/dashboard/superAdmin/Client.jsx:136-144 | an empty search with status `all` shows every client |
| ClientPage.ComputeTotals | src/pages/dashboard/superAdmin/Client.jsx:429 | the client total is the number of clients shown |
| ClientPage.TotalProjectsOverShown | src/pages/dashboard/superAdmin/Client.jsx:437 | the project total sums the project counts (missing as 0) over exactly the clients shown |
| ClientPage.InProgressLabel | src/pages/dashboard/superAdmin/Client.jsx:132-134 | `in_progress` reads `In Progress` |
| ClientPage.FirstUnderscoreOnly | src/pages/dashboard/superAdmin/Client.jsx:133 | only the first underscore becomes a space |
| ClientPage.ProjectCountLabel | src/pages/dashboard/superAdmin/Client.jsx:479 | the label starts with the count (missing as 0) and a space |
| ClientPage.ProjectCountLabelNumber | src/pages/dashboard/superAdmin/Client.jsx:479 | the singular is used exactly when the count is 1; a missing count reads `0 Projects` |
| AddProjectPage.PopulateForm | src/pages/dashboard/superAdmin/AddProject.jsx:107-120 | status, priority, progress and paid default to pending, medium, 0 and 0; a zero or missing budget is shown empty; the client is its id; name and description are copied and the designers and developers become their ids (empty when missing); a kept budget is the stored one; each date is the stored one cut before its first `T`, so it is unchanged exactly when it has no `T` |
| AddProjectPage.PopulateCompleteProject | src/pages/dashboard/superAdmin/AddProject.jsx:107-120 | a project with a status, a priority, a client and a non-zero budget keeps them in the form; dates `dayTtime` give `day` |
| AddProjectPage.PopulateEmptyProject | src/pages/dashboard/superAdmin/AddProject.jsx:39-52 | an empty project fills the form with the page's starting values |
| AddProjectPage.ResetDropsPaid | src/pages/dashboard/superAdmin/AddProject.jsx:163-177 | a reset restores the starting values but has no `paid` field |
| AddProjectPage.MultiSelectFlips | src/pages/dashboard/superAdmin/AddProject.jsx:133-142 | a selection flips that id's membership: an absent id is appended at the end, a present one is filtered out while every other id stays in order and as often as before; the other list and all other fields are kept; selecting twice restores membership |
| AddProjectPage.HandleSave | src/pages/dashboard/superAdmin/AddProject.jsx:144-161 | saving creates exactly in the create view |
| AddProjectPage.SaveChoice | src/pages/dashboard/superAdmin/AddProject.jsx:146-156 | other views update the selected project at its own path with the form; without a selected project the save fails |
| DesignerProjectsPage.AddLinkField | src/pages/dashboard/designer/Projects.jsx:141-146 | an empty link is appended and the rest are kept |
| DesignerProjectsPage.UpdateLink | src/pages/dashboard/designer/Projects.jsx:148-153 | only the edited position changes |
| DesignerProjectsPage.RemoveLink | src/pages/dashboard/designer/Projects.jsx:155-160 | exactly that position is removed and the others keep their order |
| DesignerProjectsPage.LinkEditsUndo | src/pages/dashboard/designer/Projects.jsx:141-160 | adding a field and removing it gives the list back, and so does writing an old value back |
| DesignerProjectsPage.SelectImages | src/pages/dashboard/designer/Projects.jsx:119-131 | the chosen files are appended after the existing images and their previews after the existing previews, nothing else changes, and aligned lists stay aligned |
| DesignerProjectsPage.RemoveImage | src/pages/dashboard/designer/Projects.jsx:133-139 | a position inside a list is cut out of it, the rest keeping their order, and a position outside leaves it alone, so aligned lists lose the same entry and stay aligned; nothing else changes |
| DesignerProjectsPage.RemoveImageKeepsPairs | src/pages/dashboard/designer/Projects.jsx:133-139 | every remaining file still sits next to its own preview |
| DesignerProjectsPage.ValidLinks | src/pages/dashboard/designer/Projects.jsx:171 | the links kept are an in-order subsequence holding every non-blank link as often as it was typed and no blank one |
| DesignerProjectsPage.Submit | src/pages/dashboard/designer/Projects.jsx:162-188 | an update is submitted iff the description is not blank and a project is open |
| DesignerProjectsPage.SubmitPayload | src/pages/dashboard/designer/Projects.jsx:171-183 | the title defaults to `Development Update`; an empty status is left out and a set one is sent; remarks are present exactly when some link is not blank, and then read `Links: ` followed by the valid links joined by `, ` |
| DesignerProjectsPage.SubmitExamples | src/pages/dashboard/designer/Projects.jsx:108-117 | a freshly reset form submits nothing; one typed link gives remarks `Links: ` and that link |
| DesignerProjectsPage.DaysRemaining | src/pages/dashboard/designer/Projects.jsx:190-197 | no deadline gives none; otherwise the whole days left, rounded up |
| DesignerProjectsPage.DeadlineMarks | src/pages/dashboard/designer/Projects.jsx:656-657 | a card is overdue iff the deadline is a day or more past, urgent iff it is less than a day past or at most three days ahead, and never both |
| AttendancePage.RecordMapIsLastWins | src/pages/dashboard/superAdmin/Attendace.jsx:276 | the map holds an employee iff some record has that key, and then holds the last such record |
| AttendancePage.PlaceholderRow | src/pages/dashboard/superAdmin/Attendace.jsx:285-294 | a placeholder's id starts with `temp-`, so a save of it never takes the update path |
| AttendancePage.TodayRows | src/pages/dashboard/superAdmin/Attendace.jsx:278-295 | one row per employee |
| AttendancePage.TodayRowsPerEmployee | src/pages/dashboard/superAdmin/Attendace.jsx:276-295 | row i is the last record keyed by employee i used as it is, or that employee's placeholder |
| AttendancePage.StartEditAsWritten | src/pages/dashboard/superAdmin/Attendace.jsx:118-125 | editing starts from the record's status and remarks; each check time set on the record is shown as its formatted clock time, and an unset check time as empty (the check-in is empty iff the record has none or it formats to empty); the form carries no hours |
| AttendancePage.Stamp | src/pages/dashboard/superAdmin/Attendace.jsx:155-156 | an empty time gives none |
| AttendancePage.StampOnToday | src/pages/dashboard/superAdmin/Attendace.jsx:155-156 | a stamp starts with today's date, `T` and the time, ends in `:00` with nothing else between, and its date part is today |
| AttendancePage.Payload | src/pages/dashboard/superAdmin/Attendace.jsx:152-160 | the body is dated today and carries the form's status and remarks; each check time is stamped on today, or null when empty; hours default to 0; the user id is the populated user's id, and absent when the record holds a bare id |
| AttendancePage.Save | src/pages/dashboard/superAdmin/Attendace.jsx:149-171 | the save updates iff the id is set and does not start with `temp-`; otherwise it marks new attendance; both send the payload |
| AttendancePage.SaveFromTodayRows | src/pages/dashboard/superAdmin/Attendace.jsx:162-171 | saving the placeholder row of an employee with no record marks new attendance for that employee's id |
| AttendancePage.StatusOnlyEditDropsHours | src/pages/dashboard/superAdmin/Attendace.jsx:118-125 | an 8-hour record whose status alone is edited is saved with 0 hours |
| AttendancePage.StatusOnlyEditKeepsHours | src/pages/dashboard/superAdmin/Attendace.jsx:149-171 | with the edit form that copies the hours, a status-only edit of a saved record updates it with its own hours, remarks and check times (each stamped on the save date) and the new status |
| AttendancePage.Csv | src/pages/dashboard/superAdmin/Attendace.jsx:199-200 | nothing is produced exactly when there are no records |
| AttendancePage.CsvLines | src/pages/dashboard/superAdmin/Attendace.jsx:202-212 | the header line and then one line per record |
| AttendancePage.CsvReadsBack | src/pages/dashboard/superAdmin/Attendace.jsx:202-212 | when no field holds a comma or a line break, splitting the file at line breaks gives one more line than records, and splitting the header and each row at commas gives back the six headers and the record's six fields |
| ActivityLogsPage.Parts | src/pages/dashboard/superAdmin/ActivityLogs.jsx:40-41 | a positive length splits into hours and minutes with minutes below 60 and 60 times hours plus minutes equal to the length |
| ActivityLogsPage.DurationShape | src/pages/dashboard/superAdmin/ActivityLogs.jsx:38-43 | a missing or zero length reads `Active`; an hour or more reads `Hh Mm`; 1 to 59 minutes read `Mm` |
| ActivityLogsPage.DurationInjective | src/pages/dashboard/superAdmin/ActivityLogs.jsx:38-43 | a positive length never reads `Active`, and different positive lengths read differently |
| ActivityLogsPage.JsRem | src/pages/dashboard/superAdmin/ActivityLogs.jsx:41 | the remainder has the dividend's sign, lies strictly between minus and plus the divisor, and differs from the dividend by a multiple of the divisor, so it is the truncating remainder |
| StatsPage.MonthlyData | src/pages/dashboard/superAdmin/Stats.jsx:86-96 | one point per completed-projects entry, in the same order, carrying that entry's month and count |
| StatsPage.MonthlyEarnings | src/pages/dashboard/superAdmin/Stats.jsx:88-94 | a point's earnings come from the first earnings entry of the same year and month, and are 0 when there is none |
| StatsPage.UniqueMonthEarnings | src/pages/dashboard/superAdmin/Stats.jsx:88-94 | with at most one earnings entry per month, a month that has an entry shows that entry's earnings |
| Common.NormalizeShapesAgree | src/features/client/clientSlice.js:93 | a list sent bare or inside its wrapper is read back as itself, and the read list is empty exactly when the response has no items or no list |
| Common.MessageOrChoice | src/features/stats/statsSlice.js:82 | the stored error is the payload's own message or the fallback, never empty when the fallback is not |
| Common.ThunkAndReducerAgree | src/features/lead/salesSlice.js:19 | rejecting with the response body (or a fallback object) and reading `payload?.message || fallback` stores the same string as rejecting with `data?.message || fallback` (clientDashboardSlice.js:25) |
| Entities.MergeClient | src/features/client/clientSlice.js:126 | the merged entry takes the response's id and every field the response carries (name, e-mail, phone, flags, project count, project list), and keeps each field the response lacks |
| Entities.MergeAttendance | src/features/attendance/attendanceSlice.js:187-190 | the merged record keeps its user and date (the patch carries neither), takes the response's id, and for status, check-in, check-out, hours and remarks takes the response's value when given, else keeps its own |
| Entities.MergesAreIdempotent | src/features/client/clientSlice.js:126 | spreading the same response twice (client or attendance, attendanceSlice.js:187-190) is spreading it once, and a response with only the entry's id leaves it unchanged |
| Text.CapitalizeWordsRecases | src/pages/dashboard/superAdmin/Employees.jsx:110 | capitalising only re-cases: words start where they did, no word starts with a lower-case letter, the text lower-cases to the lower-cased input, and capitalising twice is capitalising once |
| Text.FormatLabelOnlyRecases | src/pages/dashboard/superAdmin/Employees.jsx:109-111 | the role label (and the identical status label of the client page) keeps the input's length and lower-cases to the lower-cased input with its first underscore made a space |
| AttendancePage.LinesHaveNoBreaks | src/pages/dashboard/superAdmin/Attendace.jsx:202-212 | when no field holds a line break, no line of the file does either |

## Left out

- Network calls are not modelled. Each thunk is modelled only by the phase its result reaches
  the reducer with. This covers the API client, the image-host upload and delete, and the direct
  lead creation of the assignment dialog.
- `Promise.all` races:
  - in the details fetch, which failure settles first is the parameter `projectFailsFirst`;
  - in a bulk mark, the results arrive as one list.
- The browser's token storage is the `stored` field of `AuthSlice.Session`, not real storage.
- Clocks, `toISOString`, `toLocaleDateString`, `toTimeString` and `toLocaleTimeString` are
  parameters: `todayDate`, `now`, `iso`, `hhmm`, `day`, `clock`. Timestamps are integers of
  milliseconds.
  Month names in the chart are left to the locale.
- Floating point, `toFixed` and `parseFloat` are not modelled:
  - hours are whole numbers;
  - conversion rates and percentages are exact reals.
- The hour arithmetic of the attendance edit form when check times change is not modelled: it
  needs fractional hours.
- `URLSearchParams` encoding of the query pairs is not modelled.
- Case mapping covers ASCII only. Unicode case rules and the `\b\w` regular expression's full
  word-character class are not modelled.
- JSX rendering, colour maps other than the role badge, charts, effects, `setTimeout` clearing and
  page reloads are not modelled.
- Lookups of `colors[role]` through inherited object keys such as `constructor` are not modelled.
- The attendance thunks that read `error.response.data` without `?.` throw a second error when
  there is no response. The model takes the rejected payload as given.
- The in-place mutation of the performance prop by `sort` in the overview tab is not modelled. The
  model sorts a copy.
- LeadsPage.TargetPercentage: the ratio is exact. The page rounds it with `toFixed(1)`, so a ratio
  of 99.95% or more already counts as reached on the page but not in `LeadsPage.AchievedIffReached`.
- SalesManagementPage.AverageConversionRate: the page's two-decimal rounding is left out.
- AttendanceSlice.Average: the average is an exact real. The page's number is a floating-point
  division.
- EmployeesPage.EditFormFor: `new Date(d).toISOString()` is the total parameter `iso`. For a
  joining date the browser cannot parse, the source throws a `RangeError` out of the click
  handler and the form is not opened; the model always yields a form.
- DesignerProjectSlice.SelectFilteredProjects: a priority is one of the four known values and a
  deadline is always a number. In the source an unknown or missing priority, or a missing or
  unparseable deadline, makes the comparator return `NaN`, and the resulting order is up to the
  engine; the model does not represent such projects.
- Fulfilled responses are modelled by the field the reducer reads (`action.payload.leads`,
  `action.payload.attendance` and the like), which is always present. A response without that
  field, which the source would store as `undefined`, is not represented.
- Entities.MergeAttendance: the local attendance patch has no `user` or `date` field. The
  spread `{...record, ...action.payload}` would overwrite them if the payload carried them, so
  "keeps its user and date" holds for the patches the model admits, not for every payload.
- DesignerProjectsPage.DaysRemaining: deadlines are integer milliseconds. Date-string parsing is
  not modelled.

## Findings

| source | as written | input that shows it | evidently intended | confidence | as-written member | corrected member |
|---|---|---|---|---|---|---|
| src/pages/dashboard/superAdmin/Attendace.jsx:118-125, 158 | `handleStartEdit` does not copy `totalHours` into the edit form, so saving without touching the check times sends `totalHours` as `undefined \|\| 0` = 0 | a record with 8 hours whose status alone is changed and saved | the record's hours are kept when the check times are not edited | medium, not executed | AttendancePage.StatusOnlyEditDropsHours | AttendancePage.StatusOnlyEditKeepsHours |
