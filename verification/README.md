# Staffing calculator (eVisa support) — a Dafny model

The calculator sizes a two-tier support team for one month. One agent's
productive hours per month (capacity) are the working days times the shift
length, less the shrinkage share. Each tier (FLS, first line; SLS, second
line) turns its monthly contact volume and average handle time (AHT, in
seconds) into hours of work, divided by how many contacts an agent works at
once (concurrency). The tier's headcount is that workload divided by the
capacity, rounded up, or zero when the capacity is not positive. The page
then shows the sum of the two tiers' headcounts.

The model is two modules:

- `Rounding` (`rounding.dfy`): `Ceil`, the rounding-up that `math.ceil`
  performs, defined from Dafny's `Floor`, with its characterisation as the
  least integer not below its argument, and the ordered-field facts about
  scaling that the sizing proofs use.
- `Staffing` (`staffing.dfy`): the inputs as datatypes (`Settings` for the
  sidebar, `Tier` for each column, `Report` for what the page shows), the
  formulas as functions (`ShrinkageRate`, `Capacity`, `Workload`,
  `Headcount`, `Agents`, `Plan`), and lemmas about them.

The script is straight-line arithmetic with one conditional, so every
operation is a pure function. Numbers are exact reals. The widget types are
kept: the shrinkage slider yields a whole percentage from 0 to 50, the shift
length, working days, volumes and AHTs are whole numbers (their inputs start
at whole values), and the concurrency factors are reals. Products of whole
numbers are formed on reals, which gives the same value as Python's exact
integer product.

The workload divides by the concurrency, and the script does not guard that
division: a concurrency of 0 raises an error. `Workload`, `Agents` and `Plan`
therefore require a non-zero concurrency. A negative concurrency is accepted,
as in the script. The inputs have no lower bound either, so results about
signs and growth assume a non-negative volume and AHT and a positive
concurrency.

The script guards only the headcount, not the capacity: a capacity that is
zero or negative is kept as computed and the headcount becomes 0. It applies
no low-volume cap to the headcount. The model follows the script on both.

## Model

| member | source | states |
|---|---|---|
| `Rounding.Ceil` | app.py:28 | the rounding-up of the quotient: the result is at least its argument and less than one above it |
| `Rounding.CeilUnique` | app.py:28 | any integer at least the argument and less than one above it is the ceiling |
| `Rounding.CeilLeast` | app.py:28 | every integer at least the argument is at least its ceiling |
| `Staffing.ShrinkageRate` | app.py:10 | the slider percentage over 100: the rate times 100 gives back the percentage, and a percentage in 0..50 gives a rate in [0, 0.5] |
| `Staffing.CapacityBounds` | app.py:10-15 | within the slider range and with non-negative paid hours (days × shift hours), capacity lies between half the paid hours and all of them |
| `Staffing.CapacityPositive` | app.py:10-15 | within the slider range, capacity is positive exactly when days × shift hours is, so the headcount guard fires exactly when it is not |
| `Staffing.DefaultCapacity` | app.py:10-15 | the initial values (21 days, 8 h, 10 %) give exactly 151.2 hours, with no rounding |
| `Staffing.CapacityAntitone` | app.py:10-15 | with non-negative paid hours, raising shrinkage never raises capacity, and lowers it strictly when paid hours are positive |
| `Staffing.Workload` | app.py:27 | needs a non-zero concurrency; the workload times concurrency times 3600 is the handled seconds (volume × AHT) |
| `Staffing.WorkloadSign` | app.py:23-27 | with volume and AHT non-negative and concurrency positive, workload is non-negative, and zero exactly when volume or AHT is zero |
| `Staffing.WorkloadMonotone` | app.py:27 | at a fixed positive concurrency, more volume or a longer AHT never lowers the workload |
| `Staffing.Headcount` | app.py:28 | zero when capacity is not positive, whatever the workload; otherwise n with n·capacity ≥ workload > (n − 1)·capacity |
| `Staffing.HeadcountLeast` | app.py:28 | any agent count whose hours reach the workload is at least the headcount (the headcount is the least such count) |
| `Staffing.HeadcountExact` | app.py:28 | a count whose hours reach the workload while one fewer falls short is the headcount |
| `Staffing.HeadcountSign` | app.py:28 | a non-negative workload gives a non-negative headcount, and with positive capacity a zero headcount exactly when the workload is zero |
| `Staffing.HeadcountMonotone` | app.py:28 | for a fixed capacity, more workload never gives fewer agents |
| `Staffing.Agents` | app.py:27-28 | one tier's headcount against the shared capacity (the same formula serves SLS at lines 37-38): zero when capacity is not positive, whatever the tier brings; otherwise n with n·capacity ≥ workload > (n − 1)·capacity; with positive concurrency the agents' hours at that concurrency reach the handled seconds and one agent fewer falls short |
| `Staffing.AgentsZero` | app.py:27-28 | with volume and AHT non-negative and concurrency positive, a tier needs a non-negative number of agents, and none exactly when capacity is not positive or volume or AHT is zero |
| `Staffing.AgentsMonotone` | app.py:27-28 | for a fixed capacity and concurrency, more volume or a longer AHT never lowers a tier's agents |
| `Staffing.Plan` | app.py:15-42 | capacity is `Capacity` of the settings; each tier's workload scales back to its handled seconds; each tier's agents are `Agents` of that tier against that capacity, the fewest whose hours reach its workload when capacity is positive and zero otherwise; the total is the FLS agents plus the SLS agents, covers both workloads together when capacity is positive, and is zero otherwise |
| `Staffing.SplitCostsAtMostOneAgent` | app.py:27-42 | with positive capacity, sizing the two tiers apart and adding them never needs fewer agents than sizing their pooled workload, and at most one more |
| `Staffing.DefaultPlan` | app.py:10-42 | the initial values (1000 × 400 s at concurrency 2; 200 × 1500 s at concurrency 1.5) need one agent per tier and two in total |
| `Staffing.LargeTierNeeds41` | app.py:27-28 | 11691 contacts of 3731 s at concurrency 2 against 151.2 hours need 41 agents |

## Left out

- The Streamlit page itself: page setup, title, sidebar, slider and number inputs, columns, headers, metrics and the divider. These are display and input. The slider's 0–50 range is kept as the `SliderRange` precondition. The initial widget values are kept as constants.
- The one-decimal formatting of the capacity in the sidebar note (app.py:16). It is display only.
- Floating point: the script computes in IEEE-754 doubles, and the model uses exact reals. Rounding artefacts such as a quotient just above a whole number are not modelled.
- The error raised when a concurrency is 0. It is a precondition of `Workload`, `Agents` and `Plan`, not an error result.
- Business-day calendars, several periods with growth, hourly breakdown, headcount caps for low volume, and rosters. The script has none of these: the working days are a raw input.
