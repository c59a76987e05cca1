# Event model of the qstrader trading pipeline

This project models the event taxonomy of qstrader's event-driven backtester
(`event/event.py`) and proves properties about it in Dafny. The components of
the pipeline talk to each other through four kinds of event message:

- a **market** event: new bar data is available. It carries no payload.
- a **signal** event from a strategy: a ticker and an action.
- an **order** event for the execution system: a ticker, an action and a quantity.
- a **fill** event from the brokerage: a timestamp, ticker, action, quantity,
  exchange, price and commission.

Each event carries a string discriminant (`type`): `MARKET`, `SIGNAL`, `ORDER`
or `FILL`. An order can also render a one-line summary of itself.

Files:

- `events.dfy`, module `Events`, holds the following:
  - the `Event` datatype, with one constructor per Python class;
  - the `TypeTag` discriminant;
  - the four construction functions (`NewMarketEvent`, …);
  - `FormatOrder`, the text `print_order` writes;
  - `ParseOrderSummary`, which reads a summary back; the round-trip lemma shows it inverts `FormatOrder` when neither the ticker nor the action contains a comma.
- `decimal.dfy`, module `Decimal`, holds Python's `str` of an integer. `%s`
  uses it to render the quantity. `ParseInt` is its left inverse.
- `wrappers.dfy`, module `Wrappers`, holds the `Option` type.

The model follows the code and performs no validation. The constructors store
their arguments verbatim and are total. Action values `BOT`/`SLD` appear only
in docstrings. A quantity can be any integer, including zero or a negative one.
A ticker may be empty.

The fill's timestamp is the type parameter `Time`, and its price and commission
are the type parameter `Money`. The model treats all three as opaque values and
makes no arithmetic claims about them.

## Model

| member | source | states |
|---|---|---|
| `Events.TypeTag` | event/event.py:24-103 | The discriminant is `"MARKET"`, `"SIGNAL"`, `"ORDER"` or `"FILL"` exactly when the event is a market, signal, order or fill event (each direction of each equivalence). |
| `Events.NewMarketEvent` | event/event.py:20-24 | A newly built market event has discriminant `"MARKET"`, which by TypeTag's contract means it is the payload-free Market variant. |
| `Events.NewSignalEvent` | event/event.py:32-42 | For any ticker and action, the signal event has discriminant `"SIGNAL"` and stores both inputs unchanged. |
| `Events.NewOrderEvent` | event/event.py:51-63 | For any ticker, action and quantity, the order event has discriminant `"ORDER"` and stores all three inputs unchanged. |
| `Events.NewFillEvent` | event/event.py:88-110 | For any seven inputs, the fill event has discriminant `"FILL"` and stores every field unchanged. |
| `Events.TagsDistinct` | event/event.py:24-103 | The four discriminant strings are pairwise distinct. |
| `Events.TagDeterminesVariant` | event/event.py:24-103 | Two events have the same discriminant if and only if they are the same variant. |
| `Events.EveryEventIsConstructed` | event/event.py:6-110 | Every event has one of the four discriminants. Every event is also what its variant's constructor builds from the event's own fields, so no value of the datatype falls outside the four variants (the Python hierarchy is open; see Left out). |
| `Events.FormatOrder` | event/event.py:69-73 | The summary starts with `Order: Ticker=`. Its length is that of the three labels plus the ticker, the action and the rendered quantity. |
| `Events.FormatOrderLayout` | event/event.py:70-71 | The exact layout, piece by piece at its offset: `Order: Ticker=`, the ticker verbatim, `, Action=`, the action verbatim, `, Quantity=`, then the quantity as `str` renders it, which ends the text. |
| `Events.OrderSummary` | event/event.py:65-73 | The summary of an order event starts with `Order: Ticker=`. If neither the ticker nor the action contains a comma, the three fields can be read back from it. |
| `Events.OrderSummaryRoundTrip` | event/event.py:70-71 | If the ticker and the action contain no comma, parsing the summary gives back exactly the ticker, action and quantity. |
| `Events.FormatOrderDistinguishesQuantity` | event/event.py:70-71 | Two orders with the same ticker and action but different quantities have different summaries. |
| `Events.SummaryAmbiguousWithCommas` | event/event.py:70-71 | Without the comma condition the round trip fails: ticker `A, Action=B` with action `C` prints the same line as ticker `A` with action `B, Action=C`. |
| `Events.GoogOrderSummary` | event/event.py:65-73 | The order (`GOOG`, `BOT`, 100) prints as `Order: Ticker=GOOG, Action=BOT, Quantity=100`. |
| `Decimal.NatToDigits` | event/event.py:70-71 | A natural number renders as at least one decimal digit. The first digit is `0` exactly when the number is zero, and then it is the only digit. |
| `Decimal.IntToString` | event/event.py:70-71 | An integer renders as a leading `-` (present exactly when it is negative) followed by one or more digits with no leading zero unless the integer is zero, and never contains a comma. |
| `Decimal.DigitsRoundTrip` | event/event.py:70-71 | Reading the digits of a natural number back gives that number. |
| `Decimal.IntRoundTrip` | event/event.py:70-71 | Parsing the rendering of any integer gives that integer. |
| `Decimal.IntToStringInjective` | event/event.py:70-71 | Distinct integers render as distinct strings. |

## Left out

- The `print` call in `print_order` (event/event.py:69) writes to the console, which is I/O. Only the line it would write is modelled, as `FormatOrder` and `OrderSummary`.
- The constructors check nothing. The docstrings' `'BOT'`/`'SLD'` (event/event.py:38, :57, :97) are never enforced, so every constructor is total.
- Python is dynamically typed: `ticker`, `action` and `exchange` are modelled as strings, and `quantity` as an unbounded integer. A non-string ticker or a float quantity would be rendered by Python's `str` of that object. That rendering is not modelled.
- Price, commission and timestamp are opaque type parameters. The model does not cover floating-point or datetime behaviour.
- Python objects can have their attributes reassigned after construction. The code never does this, so events are modelled as immutable values.
- In Python, reading a field that a variant lacks (such as `quantity` of a signal) raises `AttributeError`. In Dafny, the field accessor has a precondition that the event is of the right variant instead.
- The model closes the event hierarchy to the four subclasses. The base class `Event` (event/event.py:6-12) has no metaclass, as the `ABCMeta`/`abstractmethod` import (event/event.py:3) is unused. So a bare `Event()` can be built, and it has no `type` attribute. Any module can also subclass `Event`. Neither a bare `Event()` nor any other subclass is represented.
- Decimal.IntToString: every integer renders. On recent CPython (3.11 and later, and the 3.7.14, 3.8.14, 3.9.14 and 3.10.7 security releases), `str` of an integer with more than 4300 digits raises `ValueError` (`sys.int_max_str_digits`), and so would `print_order`. That limit is not modelled; the model follows interpreters without it.
- The event queue, the dispatch loop and the components that produce and consume events are not part of this model.
