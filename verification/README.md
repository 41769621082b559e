# Home-loan document assessment, modelled in Dafny

`home_loan_assessment.py` is a Streamlit page for home-loan pre-assessment. A
loan officer uploads an applicant's documents (PAN card, Aadhaar card, Form-16,
salary slips, bank statements, CIBIL report, employment proof, property papers).
The page turns each document into text. Then it:

- classifies each text by keyword;
- extracts fields with fixed regular expressions;
- folds the documents into one `parsed_docs` record;
- derives the assessment report from that record: the applicant record, three
  months of salary slips, the existing EMIs (equated monthly instalments) and
  their total, a banking summary, a gross monthly income estimate, a FOIR
  (fixed obligations to income ratio) eligibility calculation, the eight-entry
  document status, the probable queries, and the final recommendation.

This project models that decision logic once the text is in hand. The modules
follow the script's parts:

| module | file | what it models |
|---|---|---|
| `Wrappers` | wrappers.dfy | `Option`, and `Result` for the one error the core can raise (`int("")`) |
| `Text` | text.dfy | character classes, `str.lower`, `str.strip`, `splitlines`, first-match search, keyword occurrence with `\b` |
| `Amounts` | amounts.dfy | the amount normalisation `int(re.sub(r"[^\d]", "", run))`, and the `{:,}` thousands grouping it reads back |
| `Patterns` | patterns.dfy | the shared `\s*[:\-]?\s*Rs\.?\s*([0-9,]+)` tail of the labelled-amount patterns |
| `Classifier` | classifier.dfy | `detect_doc_types` |
| `Identity` | identity.dfy | `parse_pan`, `parse_aadhaar` |
| `Income` | income.dfy | `parse_form16`, `parse_salary_slip` |
| `Statements` | statements.dfy | `parse_bank_statement`, `parse_cibil` |
| `Eligibility` | eligibility.dfy | `compute_foir_and_eligibility` |
| `Batch` | batch.dfy | the per-file loop that routes each text to the extractors |
| `Assessment` | assessment.dfy | everything the page derives from `parsed_docs`, and the whole report |

Each regular expression is a scanner written by hand for that pattern. Its
contract, and the lemmas next to it, state where a match may start and what the
capture looks like. Every value the script takes from `re.search` is proved to
come from the first position where its pattern matches. The salary-slip
fallback is proved to take the match that starts last. "## Left out" names the
scanners whose captured run is stated only by a separate lemma. The parts of the
script that work step by step are methods with loops, each proved equal to a
specification function:

- the classifier adding tags to a set;
- the salary-slip component loop;
- the per-line loops over bank statements and CIBIL reports;
- the per-file fold;
- the obligation and EMI accumulation;
- the padding of the slips;
- the status map and the query list.

The properties are stated about those specification functions.

### Behaviour of the code that the model follows

- **Last document wins.** Every single-document slot of `parsed_docs` is
  reassigned by each routed file, so the last matching document wins. The
  average balance is also last-wins; the salary-credits sample is first-wins,
  through `setdefault`.
- **First three slips.** `salary_3m` takes the first three slips in upload
  order, not the most recent three.
- **`int("")` aborts the batch.** A captured amount made only of commas makes
  `int("")` raise. The exception is not caught inside the loop, so it ends the
  whole assessment rather than one document. In the model, each extractor
  returns `Result`, the fold returns `Err`, and `ReportOf` returns `Err`.
  `Batch.FoldRaises` and `Assessment.ReportRaises` state exactly when this
  happens.
- **Zero income and missing income are alike.** Both `gross_monthly == 0` and
  `None` give an empty eligibility result and the "insufficient data"
  recommendation.

## Model

| member | source | states |
|---|---|---|
| Text.Lower | home_loan_assessment.py:83 | lower-casing keeps the length and maps every character through the ASCII case fold; letters become lower-case |
| Text.Strip | home_loan_assessment.py:179 | the stripped text is no longer than the input, keeps only the input's characters, and has no white space at either end |
| Text.StripSlice | home_loan_assessment.py:179 | the stripped text is a slice of the input with only white space before it and only white space after it |
| Text.StripUnique | home_loan_assessment.py:179 | any slice with only white space around it and no white space at its ends is the stripped text |
| Text.SplitLines | home_loan_assessment.py:176 | no line that `splitlines` yields contains a line-break character |
| Text.SplitLinesOne | home_loan_assessment.py:176 | a non-empty text without line breaks is one line |
| Text.SplitLinesStep | home_loan_assessment.py:176 | a line-break-free piece followed by one terminator (`\r\n` or a single line break) is the first line, and the lines of the rest follow it |
| Text.Filter | home_loan_assessment.py:176-184 | the kept elements are at most as many as the input and each satisfies the test |
| Text.FilterMembers | home_loan_assessment.py:176-184 | an element is kept exactly when it is in the input and satisfies the test |
| Text.FilterSnoc | home_loan_assessment.py:176-184 | one more element is appended to the kept ones exactly when it satisfies the test |
| Text.FilterConcat | home_loan_assessment.py:176-184 | filtering two runs one after the other gives the kept elements of the first run followed by those of the second |
| Text.PairedSnoc | home_loan_assessment.py:180-184 | two lists paired index by index stay paired when the first gains a kept element and the second gains its partner, or neither gains anything |
| Text.OccursFromFinds | home_loan_assessment.py:84-99 | the keyword scanner reports a hit from `i` exactly when the keyword, with its `\b` conditions, occurs at some position at or after `i` |
| Text.AnyOccursFinds | home_loan_assessment.py:84-99 | a regex of keyword alternatives matches exactly when one of its alternatives occurs |
| Amounts.DigitsOf | home_loan_assessment.py:139 | `re.sub(r"[^\d]", "", …)` keeps only digits, is no longer than its input, and is empty exactly when the input has no digit |
| Amounts.DigitsOfConcat | home_loan_assessment.py:139 | removing non-digits distributes over concatenation |
| Amounts.Amount | home_loan_assessment.py:139 | the normalised amount is an error (`int("")` raising) exactly when the capture holds no digit |
| Amounts.OptionalAmount | home_loan_assessment.py:179 | an absent capture gives `None`; a present one gives its amount, or the error exactly when it has no digit |
| Amounts.GroupedAmountRoundTrip | home_loan_assessment.py:483 | the amount written with thousands separators (`{:,}`) reads back as the same number through the normalisation |
| Amounts.DecimalStringValue | home_loan_assessment.py:483 | the decimal digits of `n` denote `n` |
| Amounts.GroupDigitsKeepsDigits | home_loan_assessment.py:483 | inserting the thousands commas loses no digit and adds none |
| Patterns.RsRunAt | home_loan_assessment.py:151-156 | an `Rs\.?\s*([0-9,]+)` match starts with `Rs` (case as the caller asks) and captures a non-empty run of digits and commas of at least the required length |
| Patterns.RsRunAtCaptures | home_loan_assessment.py:151-156 | the capture is the maximal run of digits and commas after `Rs`, an optional dot and white space, and the match ends where that run ends |
| Patterns.RsRunAtFinds | home_loan_assessment.py:151-156 | conversely, `Rs` followed by an optional dot, white space and a maximal run of the required length is a match capturing that run |
| Patterns.AmountAfterUnique | home_loan_assessment.py:151-156 | the run after a given point is unique: it starts at one position and has one length |
| Patterns.AmountRun | home_loan_assessment.py:151-156 | every character of the captured run is a digit or comma |
| Patterns.CapturesAmountUnique | home_loan_assessment.py:151-156 | at most one run is captured after a given point |
| Patterns.RsAmountAtCaptures | home_loan_assessment.py:151-156 | an `Rs` capture at `i` has `Rs` at `i` and is the run after `Rs`, an optional dot and white space |
| Patterns.SpacedLabelEnd | home_loan_assessment.py:187 | a two-word label `w1\s+w2` starts at `i` exactly when `w1` is there in any case, at least one white-space character follows, and then `w2`; the label ends right after `w2` |
| Patterns.LabelledAmount | home_loan_assessment.py:151-156 | a label's `\s*[:\-]?\s*Rs…` tail captures a non-empty run of digits and commas |
| Patterns.LabelledAmountCaptures | home_loan_assessment.py:151-156 | the capture is the run after the label's separators, `Rs` in any case, an optional dot and white space |
| Classifier.DocTypes | home_loan_assessment.py:80-100 | a tag is in the result exactly when one of its keyword alternatives occurs in the lower-cased text; the result is a set of the eight tags |
| Classifier.DetectDocTypes | home_loan_assessment.py:80-100 | the tag set built by testing the eight signatures one after another equals `DocTypes` |
| Identity.FirstPan | home_loan_assessment.py:108-110 | a PAN is found exactly when some position starts five capitals, four digits and a capital; the value is that ten-character substring at the first such position |
| Identity.FirstName | home_loan_assessment.py:113-115 | a name is found exactly when the `Name…` pattern matches somewhere; the stripped capture starts with a letter and ends in a non-space |
| Identity.FirstNameFirst | home_loan_assessment.py:113-115 | the name kept is the stripped capture at the first position where the pattern matches |
| Identity.NameAtMatches | home_loan_assessment.py:113 | the pattern matches at a position exactly when "name" (any case) is there, and after its separators come a letter and at least three more name characters |
| Identity.NameAt | home_loan_assessment.py:113 | a match starts with "name" in any case; the capture is 4 to 101 characters (a letter, then letters, white space and dots), is the text right after the label and its separators, and stops at 101 characters, at the end of the text or before a character outside the class |
| Identity.FirstDate | home_loan_assessment.py:116-118 | a date of birth is found exactly when some position starts `dd/dd/dddd`; the value is the first such substring |
| Identity.ParsePan | home_loan_assessment.py:105-119 | the PAN and date have their shapes; the result is the empty dict exactly when none of the three patterns matches |
| Identity.AadhaarAt | home_loan_assessment.py:123-125 | a `\b\d{4}\s?\d{4}\s?\d{4}\b` match starts at a word boundary with four digits, and its capture with spaces removed begins with those four digits, is 12 to 14 characters of digits and other white space, and has no space |
| Identity.AadhaarAtCaptures | home_loan_assessment.py:123-125 | a match is three four-digit groups, each separator empty or one white-space character, between word boundaries, and the result is that text with its spaces removed |
| Identity.AadhaarAtFinds | home_loan_assessment.py:123-125 | conversely, three such groups between word boundaries are a match whose result is that text with its spaces removed |
| Identity.AadhaarChars | home_loan_assessment.py:123 | every character of an Aadhaar match is a digit or white space |
| Identity.AadhaarPrefix | home_loan_assessment.py:123-125 | removing spaces from a match leaves its first four digits in front |
| Identity.AadhaarCapture | home_loan_assessment.py:123-125 | three four-digit groups with optional single white-space separators leave 12 to 14 digit-or-blank characters once spaces are removed |
| Identity.BlanksOfGroups | home_loan_assessment.py:125 | removing spaces from the digit groups and separators keeps the digit groups intact |
| Identity.RemoveBlanksConcat | home_loan_assessment.py:125 | `replace(" ", "")` distributes over concatenation |
| Identity.FirstAadhaar | home_loan_assessment.py:123-125 | an Aadhaar number is found exactly when the pattern matches somewhere; it is the result of the first match and has no space |
| Identity.AddressAt | home_loan_assessment.py:127 | a match starts with "address" in any case; when text follows the separators the capture runs from there to the first lookahead stop after its first character; at the end of the text there is a capture exactly when some separator was consumed, and it is the last separator |
| Identity.StopFrom | home_loan_assessment.py:127 | the lazy address capture stops at the first position where the lookahead holds (a newline and two letters, or the end) |
| Identity.FirstAddress | home_loan_assessment.py:127-129 | an address is found exactly when the `address…` pattern matches somewhere; the value is the first line of the stripped capture at the first matching position, and has no newline |
| Text.FirstSegment | home_loan_assessment.py:129 | `split("\n")[0]` is the prefix of the text that stops at the first newline or at the end |
| Identity.ParseAadhaar | home_loan_assessment.py:121-130 | the Aadhaar number has no space; the result is the empty dict exactly when neither pattern matches |
| Income.TotalSalaryAt | home_loan_assessment.py:135 | a `Total\s+Salary…Rs` match starts with "total" in any case and captures a non-empty run of digits and commas |
| Income.SalaryLabelEnd | home_loan_assessment.py:135 | the label `Total\s+Salary\s*[:\-\s]*` starts at `i` exactly as written in any case, and ends after its separator run |
| Income.TotalSalaryAtCaptures | home_loan_assessment.py:135 | the capture is the run after the label, `Rs` in any case, an optional dot and white space |
| Income.TotalFigureAt | home_loan_assessment.py:137 | the fallback `Total\s+([\d,]{5,})` match starts with "Total" as written; the capture is the slice right after the white space, at least five digits or commas, and not followed by another digit or comma |
| Income.FigureRunAt | home_loan_assessment.py:141 | a `[\d,]{4,}` run is a maximal substring of at least four digits or commas |
| Income.TaxableAt | home_loan_assessment.py:141 | the taxable-income capture is the first `[\d,]{4,}` run after the "Income chargeable under the head" label (lazy `.*?`) |
| Income.ParseForm16 | home_loan_assessment.py:132-144 | the extractor raises exactly when the chosen total-salary capture or the taxable capture has no digit; otherwise the total salary is the value of the first `Total Salary` capture, else of the first fallback capture, and is absent when neither matches; the taxable income is the value of its capture, and absent when that does not match |
| Income.ComponentAt | home_loan_assessment.py:151-156 | a component pattern matches after its label and captures a non-empty run of digits and commas |
| Income.ComponentAtCaptures | home_loan_assessment.py:151-156 | the capture is the run after the component's label, its separators, `Rs` in any case, an optional dot and white space |
| Income.EveryComponentListed | home_loan_assessment.py:150-157 | the component loop visits every component |
| Income.LabelledComponentsMeaning | home_loan_assessment.py:158-164 | the component loop raises exactly when some matched component's capture has no digit; otherwise the dict holds exactly the matched components, each with its normalised amount |
| Income.LabelledComponentsErr | home_loan_assessment.py:158-164 | once the component loop has raised, later components do not undo it |
| Income.FindAllRsFigures | home_loan_assessment.py:166 | every `re.findall` capture is at least three digits or commas |
| Income.NoFigures | home_loan_assessment.py:166-167 | `findall` returns nothing exactly when no position starts a match |
| Income.LastFigureIsLastMatch | home_loan_assessment.py:166-168 | `nums[-1]` is the capture of a match after which no match starts |
| Income.FillComponents | home_loan_assessment.py:158-164 | the dict filled pattern by pattern equals the specification of the component loop |
| Income.ParseSalarySlip | home_loan_assessment.py:146-169 | the slip parsed by the loop and the fallback equals `SalarySlip` |
| Income.SalarySlipComponents | home_loan_assessment.py:158-164 | every key other than Net Pay is present exactly when its pattern matched, and holds the amount of that capture |
| Income.SalarySlipNetPay | home_loan_assessment.py:158-164 | when the Net Pay label matched, Net Pay is present with the amount of its capture |
| Income.SalarySlipNetPayFallback | home_loan_assessment.py:165-168 | without a Net Pay label, Net Pay is present exactly when some `Rs` figure exists, and then holds the amount of the figure that starts last |
| Income.ComponentsRaise | home_loan_assessment.py:158-164 | the component loop raises exactly when some component's capture has no digit; otherwise Net Pay is in its dict exactly when its label matched, with that capture's amount |
| Income.LastFigureDigitless | home_loan_assessment.py:165-168 | the last findall entry has no digit exactly when the figure that starts last captures a run without one |
| Income.SalarySlipRaises | home_loan_assessment.py:158-168 | the slip raises exactly when a component's capture has no digit, or there is no Net Pay label and the last `Rs` figure has no digit |
| Statements.FirstRsAmount | home_loan_assessment.py:178 | a line's amount capture exists exactly when `Rs\.?\s*([0-9,]+)` matches somewhere in it, and is a non-empty run of digits and commas |
| Statements.FirstRsAmountCaptures | home_loan_assessment.py:178 | the capture is the run after the first `Rs` (as written) that has a match, after an optional dot and white space |
| Statements.LineRaises | home_loan_assessment.py:177-184 | a line raises exactly when an EMI line's or a salary line's amount capture has no digit |
| Statements.ScanLinesStep | home_loan_assessment.py:176-184 | the line loop raises on a longer text exactly when it raised before or the new line raises |
| Statements.ScanLinesErr | home_loan_assessment.py:176-184 | once the line loop has raised, later lines do not undo it |
| Statements.RaisingLine | home_loan_assessment.py:176-184 | a loop that raised has a line that raises |
| Statements.NoRaiseAt | home_loan_assessment.py:176-184 | a loop that did not raise has no line that raises |
| Statements.ScanLinesRaises | home_loan_assessment.py:176-184 | the statement extractor raises exactly when one of its lines does |
| Statements.ObligationPerEmiLine | home_loan_assessment.py:176-179 | there is exactly one obligation per line matching the EMI keywords, in line order; each holds the stripped line and the line's first `Rs` amount, or `None` |
| Statements.LineCreditsValue | home_loan_assessment.py:180-184 | a line adds one credit, its amount, when it mentions salary and carries an amount, and adds nothing otherwise |
| Statements.CreditPerSalaryLine | home_loan_assessment.py:176-184 | the salary credits pair up, in line order, with the lines that mention salary and carry an `Rs` amount, each credit being that line's normalised amount |
| Statements.ScanLinesSnoc | home_loan_assessment.py:176-184 | one more line makes the loop raise when that line raises, and otherwise appends what the line adds |
| Statements.AvgBalanceAt | home_loan_assessment.py:187 | an `Average\s+Balance…Rs` match starts with the two-word label and captures a non-empty run of digits and commas |
| Statements.AvgBalanceAtCaptures | home_loan_assessment.py:187 | the capture is the run after the label, its separators, `Rs` in any case, an optional dot and white space |
| Statements.ParseBankStatement | home_loan_assessment.py:171-190 | the statement built line by line equals `BankStatement`, whose content `BankStatementFields` and `BankStatementRaises` state |
| Statements.BankStatementRaises | home_loan_assessment.py:176-189 | the statement raises exactly when an EMI or salary line has an `Rs` capture without a digit, or the average-balance capture has none |
| Statements.BankStatementFields | home_loan_assessment.py:176-189 | a parsed statement has one obligation per EMI line, recording it; one credit per salary line with an `Rs` figure, with its amount; and an average balance exactly when the pattern matches, holding the amount of the first match |
| Statements.ScoreLabelEnd | home_loan_assessment.py:194 | a score label starts at `i` exactly when "cibil" or "credit score" does, in any case; the label ends after whichever matched, "cibil" first |
| Statements.ScoreAt | home_loan_assessment.py:194 | a score matches at `i` exactly when a score label starts there and three digits follow its separators; the score is the decimal value of those three digits, at most 999 |
| Statements.ThreeDigits | home_loan_assessment.py:194-196 | three digits have a decimal value of at most 999 |
| Statements.Cibil | home_loan_assessment.py:192-203 | a score is present exactly when the score pattern matches somewhere, and is at most 999; the loans are the loan-history lines of the text, stripped, each with no white space at either end |
| Statements.CibilScoreFirst | home_loan_assessment.py:194-196 | the score kept is the one at the first position where the score pattern matches |
| Statements.LoanLinesStripped | home_loan_assessment.py:199-201 | every kept loan-history line has no white space at either end |
| Statements.LoanLineOrigin | home_loan_assessment.py:199-201 | every loan entry is the stripped form of some loan-history line |
| Statements.LoanLineKept | home_loan_assessment.py:199-201 | every loan-history line gives a loan entry |
| Statements.LoanLinesMembers | home_loan_assessment.py:199-201 | the loan entries are exactly the stripped loan-history lines |
| Statements.LoanLinesConcat | home_loan_assessment.py:199-201 | the loan entries of two runs of lines are those of the first followed by those of the second |
| Statements.ParseCibil | home_loan_assessment.py:192-203 | the report built line by line equals `Cibil` |
| Eligibility.PowAboveOne | home_loan_assessment.py:220 | `(1+r)**n` exceeds one for a positive rate and at least one month, so the factor's denominator is positive |
| Eligibility.EmiPerLakh | home_loan_assessment.py:215-220 | the EMI per lakh is positive for a positive monthly rate |
| Eligibility.ApproxLoan | home_loan_assessment.py:221 | the loan is zero when nothing is available or the rate is not positive; otherwise it is the largest whole loan whose EMI does not exceed the available amount |
| Eligibility.FloorBounds | home_loan_assessment.py:221 | when `available * 100000 / emi_per_lakh` lies between `n` and `m`, the EMI of `n` rupees is at most the available amount and the EMI of `m` rupees exceeds it |
| Eligibility.ComputeFoirAndEligibility | home_loan_assessment.py:208-227 | empty exactly when income is missing or zero; otherwise the FOIR cap is `gross * foir / 100` truncated, the available EMI is the cap minus existing EMIs (possibly negative), and the loan is zero or the largest affordable one |
| Eligibility.LoanEmiMonotone | home_loan_assessment.py:214-220 | a larger principal never has a smaller EMI |
| Eligibility.MoreEmiSmallerLoan | home_loan_assessment.py:212-221 | more existing EMIs never raise the approximate loan |
| Batch.CombinedText | home_loan_assessment.py:365 | the combined text has at least two characters per document |
| Batch.CombinedTextHolds | home_loan_assessment.py:365 | each document's text follows a blank line in the combined text, and what precedes that blank line is the combined text of the documents before it |
| Batch.RouteForm16 | home_loan_assessment.py:373-374 | a file with the FORM16 tag or "form-16" in its name replaces the Form-16 slot with its parse, which may raise |
| Batch.RouteSalarySlip | home_loan_assessment.py:375-376 | a file with the slip tag or "salary" in its name appends its slip, which may raise |
| Batch.RouteBankStatement | home_loan_assessment.py:377-378 | a file with the bank tag or "statement" in its name appends its statement, which may raise |
| Batch.ReplaceSlots | home_loan_assessment.py:369-384 | the PAN, Aadhaar, CIBIL, employment and property slots are replaced by routed files and otherwise kept |
| Batch.RouteDocument | home_loan_assessment.py:367-384 | one pass of the loop body equals `Step` |
| Batch.FoldDocuments | home_loan_assessment.py:365-384 | the loop over the files equals `Fold`, and accumulates `CombinedText` when nothing raised |
| Batch.FoldErr | home_loan_assessment.py:365-384 | once a file has raised, later files do not undo it |
| Batch.LastWhere | home_loan_assessment.py:369-384 | the last file a routing test accepts, with none accepted after it, or none at all |
| Batch.StepReplaces | home_loan_assessment.py:369-384 | a pass that does not raise replaces exactly the routed single-document slots |
| Batch.LastWins | home_loan_assessment.py:369-384 | any slot the loop reassigns holds the parse of the last file routed to it, or nothing |
| Batch.LastPanWins | home_loan_assessment.py:369-370 | the PAN slot holds the parse of the last file routed to it, or nothing |
| Batch.LastAadhaarWins | home_loan_assessment.py:371-372 | the Aadhaar slot holds the parse of the last file routed to it, or nothing |
| Batch.LastForm16Wins | home_loan_assessment.py:373-374 | the Form-16 slot holds the parse of the last file routed to it, or nothing |
| Batch.LastCibilWins | home_loan_assessment.py:379-380 | the CIBIL slot holds the parse of the last file routed to it, or nothing |
| Batch.LastEmploymentWins | home_loan_assessment.py:381-382 | the employment slot holds the text of the last file routed to it, or nothing |
| Batch.LastPropertyWins | home_loan_assessment.py:383-384 | the property slot holds the text of the last file routed to it, or nothing |
| Batch.StepAppends | home_loan_assessment.py:375-378 | a pass that does not raise appends the parsed slip and statement of a file routed to them, and nothing else |
| Batch.EveryRoutedKept | home_loan_assessment.py:369-384 | any list the loop appends to holds one entry per file routed to it, in upload order, each that file's parse |
| Batch.EveryRoutedFileKept | home_loan_assessment.py:375-378 | there is exactly one slip per file routed as a slip, and one statement per file routed as a statement, in upload order, each that file's parse |
| Batch.StepRaises | home_loan_assessment.py:367-384 | one pass raises exactly when the file's Form-16, slip or statement extraction raises |
| Batch.RaisingDoc | home_loan_assessment.py:365-384 | a batch that raised has a file that raises |
| Batch.NoRaisingDoc | home_loan_assessment.py:365-384 | a batch that did not raise has no file that raises |
| Batch.FoldRaises | home_loan_assessment.py:365-384 | the batch raises exactly when one of its files does |
| Assessment.EmployerAt | home_loan_assessment.py:403 | an `Employer\s*[:\-]?\s*(.+)` match starts with "employer" in any case and captures a non-empty line piece with no newline |
| Assessment.EmployerAtCaptures | home_loan_assessment.py:403 | the capture is the rest of the line from the end of the separator; when the separator runs to the end of the text, it is the rest of the line from the last character after the label that is not a line break |
| Assessment.EmployerAtNone | home_loan_assessment.py:403 | there is no match at `i` exactly when the label is not there or only line breaks follow it |
| Assessment.Employer | home_loan_assessment.py:403-405 | an employer is found exactly when the pattern matches somewhere; the value is the stripped capture at the first matching position, and has no newline and no white space at either end |
| Assessment.BuildApplicant | home_loan_assessment.py:391-409 | the fields nothing fills (father/husband name, mobile, email, designation, date of joining) are empty; an employer is only set from a non-empty employment proof |
| Assessment.ApplicantFromFiles | home_loan_assessment.py:391-409 | name, PAN and date of birth come from the last PAN-routed file, Aadhaar number and address from the last Aadhaar-routed file, employer from the last employment-routed file, with "" when absent; each has its pattern's shape |
| Assessment.FirstThreeSlips | home_loan_assessment.py:412-414 | exactly three slips: the first three parsed, then empty dicts |
| Assessment.ObligationsKept | home_loan_assessment.py:420-421 | every statement's obligations are all in the concatenated list |
| Assessment.EmiTotalConcat | home_loan_assessment.py:427-432 | the EMI total of a concatenation is the sum of the totals |
| Assessment.EmiTotalCovers | home_loan_assessment.py:427-432 | every obligation's amount is at most the total |
| Assessment.PositiveObligation | home_loan_assessment.py:427-432 | a positive total has an obligation with a positive amount |
| Assessment.EmiDetected | home_loan_assessment.py:427-432 | the total is positive exactly when some obligation has a positive amount |
| Assessment.Take3 | home_loan_assessment.py:424 | `salary_credits[:3]` is the prefix of length at most three |
| Assessment.FirstCredited | home_loan_assessment.py:423-424 | the first statement with salary credits, with none before it, or none at all |
| Assessment.LastBalanced | home_loan_assessment.py:425-426 | the last statement with a truthy average balance, with none after it, or none at all |
| Assessment.SummaryOf | home_loan_assessment.py:419-426 | the salary-credit sample is one to three credits and is absent exactly when no statement has credits; the average balance is positive and is absent exactly when no statement has a truthy one |
| Assessment.SummaryStep | home_loan_assessment.py:420-426 | each statement appends its obligations, sets the credit sample only if it was unset (`setdefault`), and overwrites the balance when it has one |
| Assessment.AggregateBanking | home_loan_assessment.py:417-432 | the two loops give the concatenated obligations, their EMI total, and the banking summary |
| Assessment.TotalIncomeAt | home_loan_assessment.py:442 | a `Total\s+Income…Rs` match starts with the two-word label and captures a non-empty run of digits and commas |
| Assessment.TotalIncomeAtCaptures | home_loan_assessment.py:442 | the capture is the run after the label, its separators, `Rs` in any case, an optional dot and white space |
| Assessment.GrossMonthly | home_loan_assessment.py:435-444 | a truthy Form-16 total salary gives its twelfth, truncated; otherwise a truthy first-slip Net Pay as is; otherwise the "Total Income" amount's twelfth; `None` exactly when none applies; it raises exactly when the last rule's capture has no digit |
| Assessment.GrossMonthlyPrecedence | home_loan_assessment.py:435-444 | once a rule applies, nothing the later rules read changes the estimate |
| Assessment.Summarise | home_loan_assessment.py:446-454 | the eligibility summary carries the estimate and total EMI; its other entries are all absent exactly when income is missing or zero; for a positive income they are the calculator's four results for FOIR 60, rate 8.5 and 20 years: the FOIR cap, the headroom after existing EMIs, and the largest whole loan whose instalment fits it |
| Assessment.StatusOf | home_loan_assessment.py:457-465 | the status map has exactly the eight document keys |
| Assessment.DocumentStatus | home_loan_assessment.py:457-465 | the map built by eight assignments equals `StatusOf` |
| Assessment.StatusRows | home_loan_assessment.py:457-465 | each entry is Received exactly when its slot is truthy: a non-empty dict, a slip list with a non-empty slip, a non-empty statement list, a CIBIL report, or a non-empty text |
| Assessment.CardStatus | home_loan_assessment.py:458-459 | PAN and Aadhaar are Received exactly when the last card routed yielded any field |
| Assessment.BankStatus | home_loan_assessment.py:462 | the bank statement is Received exactly when some file was routed to it |
| Assessment.FilterEmpty | home_loan_assessment.py:462 | no file is routed to a test exactly when there is no last such file |
| Assessment.CibilStatus | home_loan_assessment.py:463 | CIBIL is Received exactly when some file was routed to it |
| Assessment.TextStatus | home_loan_assessment.py:464-465 | employment and property proofs are Received exactly when the last file routed to them has text |
| Assessment.RequestsDiffer | home_loan_assessment.py:470-477 | the six requests are different texts: they differ in length, and the two of equal length differ in their first letter |
| Assessment.QueryParts | home_loan_assessment.py:468-478 | a conditional request is in the list exactly when its own part holds it, since the requests are different texts |
| Assessment.Queries | home_loan_assessment.py:468-478 | each conditional request is present exactly when its condition holds (no PAN, no Aadhaar, neither Form-16 nor slips, EMIs detected); the list ends with the two standing requests, and its length is two plus the number of conditions that hold |
| Assessment.ProbableQueries | home_loan_assessment.py:468-478 | the list built by successive appends equals `Queries` |
| Assessment.Recommendation | home_loan_assessment.py:481-485 | the insufficient-data text is given exactly when the loan is missing or zero; otherwise the eligibility template, with the amount between its prefix and suffix |
| Assessment.RecommendationQuotesLoan | home_loan_assessment.py:483 | the figure in an eligible recommendation reads back as the loan amount |
| Assessment.ReportOf | home_loan_assessment.py:367-485 | a report has three salary months and all eight status keys, and recommends insufficient data exactly when the loan is missing or zero |
| Assessment.ReportRaises | home_loan_assessment.py:367-485 | the assessment fails exactly when some file's extraction raises, or the "Total Income" fallback is reached and its capture has no digit |
| Assessment.Assess | home_loan_assessment.py:367-485 | the page's computation, step by step, equals `ReportOf` |

## Left out

- Text acquisition is not modelled: OCR, PDF text extraction, image decoding, and reading uploaded files and dispatching on their extension. Each document arrives as a `Document(name, text)`.
- The PDF report builder, the Streamlit page (uploader, sample-report button, previews, download), the API key and the sample path are not modelled. They are layout, I/O and configuration.
- Letter and digit classes are ASCII. `\w`, `\d`, `str.lower()` and case-insensitive matching are modelled on ASCII letters and digits; Unicode letters and digits are not modelled. `\s` and `str.isspace` are modelled by Python's full set of white-space characters.
- The amortisation factor is computed with exact reals: monthly rate `rate/1200` and a natural-number power. The model does not follow IEEE float rounding. Near a whole-rupee boundary, the float computation may truncate to a loan one rupee off the exact one.
- Eligibility.ComputeFoirAndEligibility: computes the FOIR cap `int(gross_monthly * foir_pct / 100)` (line 212) by exact integer floor division. The source divides in floating point; the two agree while the product stays within double precision (below 2^53), and a non-negative income makes truncation and floor coincide.
- Eligibility.ComputeFoirAndEligibility: requires a tenure of at least one year. With zero years the source divides by zero; the page always passes 20.
- The banking summary keeps the credits sample and the balance as numbers, not as the `str(...)` text the page stores.
- Status keys and report keys are datatype constructors. `Assessment.Label` gives the source's key text for each status entry.
- The source's test for a "FORM-16" tag never holds, because the classifier only produces FORM16. Routing omits it.
- Batch.Form16Of: gives empty fields for a file whose Form-16 extraction raises. Such a file never reaches the Form-16 slot, because the batch has already failed.
- Income.Labelled, Statements.ScanLines, Statements.BankStatement, Income.SalarySlip, Assessment.AllObligations and Assessment.EmiTotal carry no contract of their own, and Statements.LoanLines only a length bound. Their properties are stated by lemmas:
  - `Labelled` by `LabelledComponentsMeaning`;
  - `ScanLines` by `ScanLinesRaises`, `ObligationPerEmiLine` and `CreditPerSalaryLine`;
  - `BankStatement` by `BankStatementRaises` and `BankStatementFields`;
  - `SalarySlip` by `SalarySlipComponents`, `SalarySlipNetPay`, `SalarySlipNetPayFallback` and `SalarySlipRaises`;
  - `AllObligations` by `ObligationsKept` and the `AggregateBanking` method;
  - `EmiTotal` by `EmiTotalConcat` and `EmiTotalCovers`;
  - `LoanLines` by `LoanLinesMembers` and `LoanLinesConcat`.
- Patterns.RsRunAt, Patterns.LabelledAmount, Statements.FirstRsAmount, Statements.AvgBalanceAt, Income.TotalSalaryAt, Income.ComponentAt and Assessment.TotalIncomeAt: their own contracts give only the shape of the capture. Which run is captured is stated by the matching `…Captures` lemma, and for `Rs` runs conversely by `Patterns.RsRunAtFinds`. Keeping that statement in a lemma keeps each scanner's contract cheap for the many proofs that use it.
- Identity.AadhaarAt: its own contract gives the shape of the result. `Identity.AadhaarAtCaptures` and `Identity.AadhaarAtFinds` state in both directions that a match is three digit groups between word boundaries and that the result is that text without spaces.
- Assessment.EmployerAt: its own contract gives the shape of the capture. `Assessment.EmployerAtCaptures` and `Assessment.EmployerAtNone` state where it starts and when there is none.
- The `try`/`except: pass` around the EMI sum is not modelled. It cannot fire, because every stored amount is already an integer.
