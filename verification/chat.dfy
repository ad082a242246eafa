/** The text-chat handler (backend/chat.py): the bounded conversation
    history, the persona-aware system prompt, the "Presto-Change-O" mode
    switch detector, the accumulation of streamed tool-call fragments and
    the processing of the completed calls, and one chat turn put together.
    The module-level globals become an explicit `ChatState`; the model
    client, the mode store and the persona generator are parameters. */
module Chat {
  import opened Wrappers
  import opened Strings
  import opened Json
  import opened Modes
  import Tools
  import Sorting

  // ---------------------------------------------------------------------
  // Conversation history

  datatype Message = Message(role: string, content: string)

  const HistoryLimit := 20

  /** add_to_history: append, then drop the oldest entry once the list is
      longer than the limit. */
  function AddToHistory(history: seq<Message>, m: Message): (r: seq<Message>)
    ensures |r| > 0 && r[|r| - 1] == m
    ensures |history| < HistoryLimit ==> r == history + [m]
    ensures |history| >= HistoryLimit ==> r == history[1..] + [m]
    ensures |history| <= HistoryLimit ==> |r| <= HistoryLimit
  {
    var h := history + [m];
    if |h| > HistoryLimit then h[1..] else h
  }

  /** Adds the messages one after the other. */
  function AddAll(history: seq<Message>, ms: seq<Message>): seq<Message>
    decreases |ms|
  {
    if |ms| == 0 then history else AddAll(AddToHistory(history, ms[0]), ms[1..])
  }

  /** The last `n` elements (all of them when there are fewer). */
  function LastN<T>(xs: seq<T>, n: nat): seq<T> {
    if |xs| <= n then xs else xs[|xs| - n..]
  }
  /** Only the last `n` elements decide `LastN`. */
  lemma LastNOfSuffix<T>(p: seq<T>, q: seq<T>, n: nat)
    requires |q| >= n
    ensures LastN(p + q, n) == LastN(q, n)
  {
    var l, r := LastN(p + q, n), LastN(q, n);
    forall i | 0 <= i < n
      ensures l[i] == r[i]
    {
      assert l[i] == (p + q)[|p| + |q| - n + i];
    }
  }

  lemma LastNAppend<T>(a: seq<T>, b: seq<T>, n: nat)
    ensures LastN(LastN(a, n) + b, n) == LastN(a + b, n)
  {
    if |a| > n {
      var t := LastN(a, n);
      assert a + b == a[..|a| - n] + (t + b) by {
        assert a == a[..|a| - n] + t;
      }
      LastNOfSuffix(a[..|a| - n], t + b, n);
    }
  }

  /** One addition keeps the last 20 of the history and the new message. */
  lemma AddIsLastN(history: seq<Message>, m: Message)
    requires |history| <= HistoryLimit
    ensures AddToHistory(history, m) == LastN(history + [m], HistoryLimit)
  {
  }

  /** However many messages are added, the history (starting within the
      limit) holds exactly the last 20 of everything ever added, in order. */
  lemma {:induction false} HistoryKeepsLast(history: seq<Message>, ms: seq<Message>)
    requires |history| <= HistoryLimit
    ensures AddAll(history, ms) == LastN(history + ms, HistoryLimit)
    decreases |ms|
  {
    if |ms| == 0 {
      assert history + ms == history;
    } else {
      var h := AddToHistory(history, ms[0]);
      var all := history + [ms[0]];
      AddIsLastN(history, ms[0]);
      HistoryKeepsLast(h, ms[1..]);
      assert AddAll(history, ms) == LastN(LastN(all, HistoryLimit) + ms[1..], HistoryLimit);
      LastNAppend(all, ms[1..], HistoryLimit);
      assert all + ms[1..] == history + ms;
    }
  }

  /** The module-level state of the handler: history and current persona. */
  datatype ChatState = ChatState(history: seq<Message>, persona: Object)

  /** clear_history */
  function ClearHistory(st: ChatState): (r: ChatState)
    ensures r.history == [] && r.persona == st.persona
  {
    st.(history := [])
  }

  /** After clearing, the next message is the whole history. */
  lemma ClearThenAdd(st: ChatState, m: Message)
    ensures AddToHistory(ClearHistory(st).history, m) == [m]
  {
  }

  // ---------------------------------------------------------------------
  // System prompt with persona context

  /** `len(value)`, None for a value without a length. */
  function Len(j: Json): (r: Option<int>)
    ensures r.Some? <==> j.JArr? || j.JStr? || j.JObj?
  {
    match j
    case JArr(a) => Some(|a|)
    case JStr(s) => Some(|s|)
    case JObj(m) => Some(|m|)
    case _ => None
  }

  const ProfileModes: set<string> := {"banking", "insurance", "healthcare"}

  const CustomerFooter := "\n\nReference this customer's information naturally in your responses."
  const PatientFooter := "\n\nReference this patient's information naturally in your responses."

  const CustomerHeader := "\nCurrent Customer Profile:\n- Name: "
  const PatientHeader := "\nCurrent Patient Profile:\n- Name: "

  /** A profile block: header and name, the remaining lines, the footer. */
  function Profile(header: string, name: string, lines: string, footer: string): (r: string)
    ensures StartsWith(r, header + name) && EndsWith(r, footer)
  {
    var r := (header + name) + lines + footer;
    assert r[..|header + name|] == header + name;
    r
  }

  /** The banking block. `money` is the `{x:,.2f}` formatting (floats are
      not modelled), None when the value cannot be formatted so. */
  function BankingContext(p: Object, money: Json -> Option<string>): (r: Option<string>)
    ensures r.Some? ==>
      StartsWith(r.value, CustomerHeader + Show(GetOr(p, "name", JNull))) && EndsWith(r.value, CustomerFooter)
    ensures r.Some? <==> money(GetOr(p, "checking_balance", JNum(0))).Some?
                         && money(GetOr(p, "savings_balance", JNum(0))).Some?
  {
    var checking :- money(GetOr(p, "checking_balance", JNum(0)));
    var savings :- money(GetOr(p, "savings_balance", JNum(0)));
    Some(Profile(CustomerHeader, Show(GetOr(p, "name", JNull)),
      "\n- Member Since: " + Show(GetOr(p, "member_since", JNull))
      + "\n- Checking Balance: $" + checking
      + "\n- Savings Balance: $" + savings
      + "\n- Credit Score: " + Show(GetOr(p, "credit_score", JNull)),
      CustomerFooter))
  }

  /** The insurance block; the policy count is `len(active_policies)`. */
  function InsuranceContext(p: Object, money: Json -> Option<string>): (r: Option<string>)
    ensures r.Some? ==>
      StartsWith(r.value, CustomerHeader + Show(GetOr(p, "name", JNull))) && EndsWith(r.value, CustomerFooter)
    ensures r.Some? <==> Len(GetOr(p, "active_policies", JArr([]))).Some?
                         && money(GetOr(p, "total_coverage", JNum(0))).Some?
                         && money(GetOr(p, "monthly_premium", JNum(0))).Some?
  {
    var policies :- Len(GetOr(p, "active_policies", JArr([])));
    var coverage :- money(GetOr(p, "total_coverage", JNum(0)));
    var premium :- money(GetOr(p, "monthly_premium", JNum(0)));
    Some(Profile(CustomerHeader, Show(GetOr(p, "name", JNull)),
      "\n- Member Since: " + Show(GetOr(p, "member_since", JNull))
      + "\n- Active Policies: " + IntToString(policies)
      + "\n- Total Coverage: $" + coverage
      + "\n- Monthly Premium: $" + premium,
      CustomerFooter))
  }

  /** The healthcare block, headed as a patient profile. */
  function HealthcareContext(p: Object, money: Json -> Option<string>): (r: Option<string>)
    ensures r.Some? ==>
      StartsWith(r.value, PatientHeader + Show(GetOr(p, "name", JNull))) && EndsWith(r.value, PatientFooter)
    ensures r.Some? <==> money(GetOr(p, "deductible_met", JNum(0))).Some?
                         && money(GetOr(p, "deductible", JNum(0))).Some?
                         && Len(GetOr(p, "active_prescriptions", JArr([]))).Some?
  {
    var met :- money(GetOr(p, "deductible_met", JNum(0)));
    var deductible :- money(GetOr(p, "deductible", JNum(0)));
    var prescriptions :- Len(GetOr(p, "active_prescriptions", JArr([])));
    Some(Profile(PatientHeader, Show(GetOr(p, "name", JNull)),
      "\n- Member ID: " + Show(GetOr(p, "member_id", JNull))
      + "\n- Primary Care Provider: " + Show(GetOr(p, "primary_care_provider", JNull))
      + "\n- Deductible Progress: $" + met + " of $" + deductible
      + "\n- Active Prescriptions: " + IntToString(prescriptions),
      PatientFooter))
  }

  /** The persona block for one of the three profile modes. */
  function PersonaContext(modeId: string, p: Object, money: Json -> Option<string>): (r: Option<string>)
    requires modeId in ProfileModes
    ensures r.Some? && modeId != "healthcare" ==>
      StartsWith(r.value, CustomerHeader + Show(GetOr(p, "name", JNull))) && EndsWith(r.value, CustomerFooter)
    ensures r.Some? && modeId == "healthcare" ==>
      StartsWith(r.value, PatientHeader + Show(GetOr(p, "name", JNull))) && EndsWith(r.value, PatientFooter)
    ensures modeId == "banking" ==>
      (r.Some? <==> money(GetOr(p, "checking_balance", JNum(0))).Some?
                    && money(GetOr(p, "savings_balance", JNum(0))).Some?)
  {
    if modeId == "banking" then BankingContext(p, money)
    else if modeId == "insurance" then InsuranceContext(p, money)
    else HealthcareContext(p, money)
  }

  /** build_system_prompt; None stands for the exception a badly typed
      persona value raises. The mode's own prompt is always a prefix. */
  function BuildSystemPrompt(mode: Mode, persona: Object, money: Json -> Option<string>): (r: Option<string>)
    ensures persona == map[] ==> r == Some(mode.systemPrompt)
    ensures mode.id !in ProfileModes ==> r == Some(mode.systemPrompt)
    ensures persona != map[] && mode.id in ProfileModes ==>
      (r.Some? <==> PersonaContext(mode.id, persona, money).Some?)
      && (r.Some? ==> r.value == mode.systemPrompt + "\n\n" + PersonaContext(mode.id, persona, money).value)
    ensures r.Some? ==> StartsWith(r.value, mode.systemPrompt)
  {
    var base := mode.systemPrompt;
    if persona == map[] || mode.id !in ProfileModes then Some(base)
    else
      var context :- PersonaContext(mode.id, persona, money);
      var r := base + ("\n\n" + context);
      assert r[..|base|] == base;
      Some(r)
  }

  /** A banking persona's name appears in the prompt, right after the
      mode's own prompt and the profile header. */
  lemma BankingPromptNamesCustomer(mode: Mode, persona: Object, money: Json -> Option<string>, name: string)
    requires mode.id == "banking" && "name" in persona && persona["name"] == JStr(name)
    requires BuildSystemPrompt(mode, persona, money).Some?
    ensures StartsWith(BuildSystemPrompt(mode, persona, money).value,
      mode.systemPrompt + "\n\n" + CustomerHeader + name)
  {
    assert PersonaContext(mode.id, persona, money) == BankingContext(persona, money);
    var c := BankingContext(persona, money).value;
    assert Show(GetOr(persona, "name", JNull)) == name;
    assert BuildSystemPrompt(mode, persona, money).value == mode.systemPrompt + "\n\n" + c;
    PrefixKept(mode.systemPrompt, "\n\n", c, CustomerHeader, name);
  }

  lemma PrefixKept(base: string, sep: string, c: string, header: string, name: string)
    requires StartsWith(c, header + name)
    ensures StartsWith(base + sep + c, base + sep + header + name)
  {
    StartsWithPrepend(base + sep, c, header + name);
    assert (base + sep) + (header + name) == base + sep + header + name;
  }

  /** An unformattable balance makes the banking prompt fail. */
  lemma BankingBalanceMustFormat(mode: Mode, persona: Object, money: Json -> Option<string>)
    requires mode.id == "banking" && persona != map[]
    requires money(GetOr(persona, "checking_balance", JNum(0))).None?
    ensures BuildSystemPrompt(mode, persona, money).None?
  {
  }

  // ---------------------------------------------------------------------
  // Mode switch detection

  /** A character `re.sub(r"[^\w\s]", "", ...)` keeps. */
  predicate Kept(c: char) {
    IsWordChar(c) || IsSpace(c)
  }

  /** Deletes every character that is neither a word character nor
      whitespace. */
  function Keep(s: string): (r: string)
    ensures |r| <= |s|
    ensures forall i :: 0 <= i < |r| ==> Kept(r[i])
  {
    if |s| == 0 then ""
    else (if Kept(s[0]) then [s[0]] else []) + Keep(s[1..])
  }

  /** The normalisation of detect_mode_switch: lower-case, then delete
      punctuation. */
  function Normalize(text: string): (r: string)
    ensures |r| <= |text|
    ensures forall i :: 0 <= i < |r| ==> Kept(r[i])
  {
    Keep(Lower(text))
  }

  lemma {:induction false} KeepNoUpper(s: string)
    requires forall i :: 0 <= i < |s| ==> !IsUpper(s[i])
    ensures forall i :: 0 <= i < |Keep(s)| ==> !IsUpper(Keep(s)[i])
  {
    if |s| > 0 {
      KeepNoUpper(s[1..]);
    }
  }

  /** The normal form holds no upper-case letter. */
  lemma NormalizeNoUpper(text: string)
    ensures forall i :: 0 <= i < |Normalize(text)| ==> !IsUpper(Normalize(text)[i])
  {
    KeepNoUpper(Lower(text));
  }

  lemma {:induction false} KeepAppend(a: string, b: string)
    ensures Keep(a + b) == Keep(a) + Keep(b)
  {
    if |a| > 0 {
      assert (a + b)[1..] == a[1..] + b;
      KeepAppend(a[1..], b);
    } else {
      assert a + b == b;
    }
  }

  lemma {:induction false} KeepAll(s: string)
    requires forall i :: 0 <= i < |s| ==> Kept(s[i])
    ensures Keep(s) == s
  {
    if |s| > 0 {
      KeepAll(s[1..]);
    }
  }

  lemma {:induction false} KeepNone(s: string)
    requires forall i :: 0 <= i < |s| ==> !Kept(s[i])
    ensures Keep(s) == ""
  {
    if |s| > 0 {
      KeepNone(s[1..]);
    }
  }

  lemma NormalizeAppend(a: string, b: string)
    ensures Normalize(a + b) == Normalize(a) + Normalize(b)
  {
    assert Lower(a + b) == Lower(a) + Lower(b);
    KeepAppend(Lower(a), Lower(b));
  }

  /** A text of kept, non-capital characters is its own normal form. */
  lemma NormalizeKeeps(w: string)
    requires forall i :: 0 <= i < |w| ==> Kept(w[i]) && !IsUpper(w[i])
    ensures Normalize(w) == w
  {
    assert Lower(w) == w;
    KeepAll(w);
  }

  /** A text of kept characters, capitals among them, normalises to its
      lower-case form. */
  lemma NormalizeLowers(w: string)
    requires forall i :: 0 <= i < |w| ==> Kept(LowerChar(w[i]))
    ensures Normalize(w) == Lower(w)
  {
    KeepAll(Lower(w));
  }

  /** A word of letters and digits normalises to its lower-case form `l`. */
  lemma NormalizeWord(w: string, l: string)
    requires |w| == |l| && forall i :: 0 <= i < |w| ==> LowerChar(w[i]) == l[i] && Kept(l[i])
    ensures Normalize(w) == l
  {
    NormalizeLowers(w);
    assert Lower(w) == l;
  }

  /** Punctuation alone normalises to nothing. */
  lemma NormalizeDrops(w: string)
    requires forall i :: 0 <= i < |w| ==> !Kept(w[i]) && !IsUpper(w[i])
    ensures Normalize(w) == ""
  {
    assert Lower(w) == w;
    KeepNone(w);
  }

  /** Punctuation between two pieces disappears from the normal form. */
  lemma NormalizeSplice(a: string, x: string, b: string)
    requires forall i :: 0 <= i < |x| ==> !Kept(x[i]) && !IsUpper(x[i])
    ensures Normalize(a + x + b) == Normalize(a) + Normalize(b)
  {
    NormalizeAppend(a + x, b);
    NormalizeAppend(a, x);
    NormalizeDrops(x);
  }

  /** Normalising twice is normalising once. */
  lemma NormalizeIdempotent(text: string)
    ensures Normalize(Normalize(text)) == Normalize(text)
  {
    var n := Normalize(text);
    NormalizeNoUpper(text);
    assert Lower(n) == n;
    KeepAll(n);
  }

  const TriggerPhrases: seq<string> := ["presto change o", "prestochangeo"]
  const BankingWords: seq<string> := ["bank", "banking", "financial"]
  const InsuranceWords: seq<string> := ["insurance", "insurer", "policy"]
  const HealthcareWords: seq<string> := ["health", "healthcare", "medical", "hospital", "doctor"]

  /** `any(word in s for word in words)` */
  predicate MentionsAny(s: string, words: seq<string>) {
    exists i :: 0 <= i < |words| && Contains(s, words[i])
  }

  /** detect_mode_switch: no mode unless a trigger phrase occurs; then the
      first keyword family that occurs decides, banking before insurance
      before healthcare. */
  function DetectModeSwitch(text: string): (r: Option<string>)
    ensures var n := Normalize(text);
      (!MentionsAny(n, TriggerPhrases) ==> r.None?)
      && (r == Some("banking") <==> MentionsAny(n, TriggerPhrases) && MentionsAny(n, BankingWords))
      && (r == Some("insurance") <==>
            MentionsAny(n, TriggerPhrases) && !MentionsAny(n, BankingWords) && MentionsAny(n, InsuranceWords))
      && (r == Some("healthcare") <==>
            MentionsAny(n, TriggerPhrases) && !MentionsAny(n, BankingWords)
            && !MentionsAny(n, InsuranceWords) && MentionsAny(n, HealthcareWords))
    ensures r.Some? ==> r.value in ProfileModes
  {
    var n := Normalize(text);
    if !MentionsAny(n, TriggerPhrases) then None
    else if MentionsAny(n, BankingWords) then Some("banking")
    else if MentionsAny(n, InsuranceWords) then Some("insurance")
    else if MentionsAny(n, HealthcareWords) then Some("healthcare")
    else None
  }

  /** The keyword lists are redundant: "banking" contains "bank" and
      "healthcare" contains "health", so those entries never change the
      outcome. */
  lemma RedundantKeywords(n: string)
    ensures MentionsAny(n, BankingWords) <==> Contains(n, "bank") || Contains(n, "financial")
    ensures MentionsAny(n, HealthcareWords) <==>
      Contains(n, "health") || Contains(n, "medical") || Contains(n, "hospital") || Contains(n, "doctor")
  {
    assert "banking"[0..4] == "bank";
    if Contains(n, "banking") && !Contains(n, "bank") {
      NotContainsByPart(n, "banking", 0, 4);
    }
    assert "healthcare"[0..6] == "health";
    if Contains(n, "healthcare") && !Contains(n, "health") {
      NotContainsByPart(n, "healthcare", 0, 6);
    }
    if Contains(n, "bank") { assert Contains(n, BankingWords[0]); }
    if Contains(n, "financial") { assert Contains(n, BankingWords[2]); }
    if Contains(n, "health") { assert Contains(n, HealthcareWords[0]); }
    if Contains(n, "medical") { assert Contains(n, HealthcareWords[2]); }
    if Contains(n, "hospital") { assert Contains(n, HealthcareWords[3]); }
    if Contains(n, "doctor") { assert Contains(n, HealthcareWords[4]); }
  }

  /** A text naming several industries switches to the first in priority. */
  lemma BankingWinsOverInsurance(text: string)
    requires MentionsAny(Normalize(text), TriggerPhrases)
    requires Contains(Normalize(text), "bank") && Contains(Normalize(text), "insurance")
    ensures DetectModeSwitch(text) == Some("banking")
  {
    assert Contains(Normalize(text), BankingWords[0]);
  }

  /** Any text whose normal form is "prestochangeo youre a bank" switches
      to banking. */
  lemma DetectBankExample(text: string)
    requires Normalize(text) == "prestochangeo youre a bank"
    ensures DetectModeSwitch(text) == Some("banking")
  {
    var n := Normalize(text);
    assert n[0..13] == "prestochangeo";
    assert OccursAt(n, TriggerPhrases[1], 0);
    assert n[22..26] == "bank";
    assert OccursAt(n, BankingWords[0], 22);
  }

  /** The docstring's first example switches to banking. */
  lemma DetectBankDocstring()
    ensures DetectModeSwitch("Presto-Change-O, you're a bank") == Some("banking")
  {
    var t := "Presto-Change-O, you're a bank";
    BankDocstringNormal(t);
    DetectBankExample(t);
  }

  /** Capitals are lowered and the hyphens, the comma and the apostrophe go. */
  lemma BankDocstringNormal(t: string)
    requires t == "Presto-Change-O, you're a bank"
    ensures Normalize(t) == "prestochangeo youre a bank"
  {
    BankDocstringPieces();
    BankDocstringConcat(t);
  }

  /** The docstring's first example, piece by piece. */
  lemma BankDocstringPieces()
    ensures Normalize(("Presto" + "-" + "Change" + "-" + "O") + ("," + " you" + "'" + "re a bank"))
         == ("presto" + "change" + "o") + (" you" + "re a bank")
  {
    HyphenatedTrigger("Presto", "-", "Change", "O");
    BankAddress(",", " you", "'", "re a bank");
    NormalizeAppend("Presto" + "-" + "Change" + "-" + "O", "," + " you" + "'" + "re a bank");
  }

  lemma BankDocstringConcat(t: string)
    requires t == "Presto-Change-O, you're a bank"
    ensures ("Presto" + "-" + "Change" + "-" + "O") + ("," + " you" + "'" + "re a bank") == t
    ensures ("presto" + "change" + "o") + (" you" + "re a bank") == "prestochangeo youre a bank"
  {
  }

  /** "Presto-Change-O" normalises to "prestochangeo". */
  lemma HyphenatedTrigger(a: string, x: string, b: string, c: string)
    requires a == "Presto" && x == "-" && b == "Change" && c == "O"
    ensures Normalize(a + x + b + x + c) == "presto" + "change" + "o"
  {
    NormalizeSplice(a, x, b);
    NormalizeSplice(a + x + b, x, c);
    NormalizeWord(a, "presto");
    NormalizeWord(b, "change");
    NormalizeWord(c, "o");
  }

  /** ", you're a bank" normalises to " youre a bank". */
  lemma BankAddress(x: string, d: string, y: string, e: string)
    requires x == "," && d == " you" && y == "'" && e == "re a bank"
    ensures Normalize(x + d + y + e) == d + e
  {
    NormalizeSplice([], x, d);
    assert [] + x + d == x + d;
    NormalizeSplice(x + d, y, e);
    NormalizeKeeps(d);
    NormalizeKeeps(e);
    assert Normalize([]) == [];
  }

  /** Any text whose normal form is the docstring's second example switches
      to healthcare: it names no bank and no insurer. */
  lemma DetectHealthcareExample(text: string)
    requires Normalize(text) == "presto change o youre a healthcare provider"
    ensures DetectModeSwitch(text) == Some("healthcare")
  {
    var n := Normalize(text);
    assert OccursAt(n, TriggerPhrases[0], 0);
    NoBankingWords(n);
    NoInsuranceWords(n);
    assert n[24..30] == "health";
    assert OccursAt(n, HealthcareWords[0], 24);
  }

  /** The docstring's second example, already in normal form, switches to
      healthcare. */
  lemma DetectHealthcareDocstring()
    ensures DetectModeSwitch("presto change o youre a healthcare provider") == Some("healthcare")
  {
    var t := "presto change o youre a healthcare provider";
    NormalizeKeeps(t);
    DetectHealthcareExample(t);
  }

  /** Where the letters that matter sit in the healthcare example: no 'b',
      no 'f', one 'y' and one 'u'. */
  lemma HealthcareLetters(n: string)
    requires n == "presto change o youre a healthcare provider"
    ensures forall i :: 0 <= i < |n| ==>
      n[i] != 'b' && n[i] != 'f' && (n[i] == 'y' ==> i == 16) && (n[i] == 'u' ==> i == 18)
  {
    forall i | 0 <= i < |n|
      ensures n[i] != 'b' && n[i] != 'f' && (n[i] == 'y' ==> i == 16) && (n[i] == 'u' ==> i == 18)
    {
    }
  }

  /** No 'b' and no 'f': neither "bank", "banking" nor "financial". */
  lemma NoBankingWords(n: string)
    requires n == "presto change o youre a healthcare provider"
    ensures !MentionsAny(n, BankingWords)
  {
    HealthcareLetters(n);
    NotContainsByChar(n, "bank", 0);
    NotContainsByChar(n, "banking", 0);
    NotContainsByChar(n, "financial", 0);
  }

  /** The one 'u' and the one 'y' are not where "insurance", "insurer" or
      "policy" would put them. */
  lemma NoInsuranceWords(n: string)
    requires n == "presto change o youre a healthcare provider"
    ensures !MentionsAny(n, InsuranceWords)
  {
    HealthcareLetters(n);
    assert n[15] == ' ' && n[11] == 'g';
    NoInsurer(n, InsuranceWords[0]);
    NoInsurer(n, InsuranceWords[1]);
    assert !OccursAt(n, "policy", 11) by { assert n[11..17][0] == n[11]; }
    NotContainsUnique(n, "policy", 5, 16);
  }

  /** A word with 'u' fourth would start at the space before "you". */
  lemma NoInsurer(n: string, w: string)
    requires |w| > 3 && w[0] == 'i' && w[3] == 'u'
    requires |n| > 18 && n[15] == ' '
    requires forall i :: 0 <= i < |n| && n[i] == 'u' ==> i == 18
    ensures !Contains(n, w)
  {
    assert !OccursAt(n, w, 15) by {
      if 15 + |w| <= |n| { assert n[15..15 + |w|][0] == n[15]; }
    }
    NotContainsUnique(n, w, 3, 18);
  }

  // ---------------------------------------------------------------------
  // Streamed tool calls

  /** One streamed tool-call fragment. A missing or empty field is "": the
      handler ignores both alike. */
  datatype ToolCallDelta = ToolCallDelta(index: int, id: string, name: string, arguments: string)

  /** One streamed chunk: its text delta ("" when absent) and its tool-call
      fragments. A chunk without choices is `Chunk("", [])`. */
  datatype Chunk = Chunk(content: string, calls: seq<ToolCallDelta>)

  datatype PendingCall = PendingCall(id: string, name: string, arguments: string)

  type PendingCalls = map<int, PendingCall>

  /** Absorbs one fragment: the entry for its index is created empty when
      new, id and name are overwritten by non-empty values, arguments are
      appended. */
  function Absorb(calls: PendingCalls, d: ToolCallDelta): (r: PendingCalls)
    ensures r.Keys == calls.Keys + {d.index}
    ensures forall k :: k in calls && k != d.index ==> r[k] == calls[k]
  {
    var cur := if d.index in calls then calls[d.index] else PendingCall("", "", "");
    calls[d.index := PendingCall(
      if d.id != "" then d.id else cur.id,
      if d.name != "" then d.name else cur.name,
      cur.arguments + d.arguments)]
  }

  /** The fragments absorbed in arrival order. */
  function Accumulate(ds: seq<ToolCallDelta>): (r: PendingCalls)
    ensures forall k :: k in r <==> Mentioned(ds, k)
  {
    if |ds| == 0 then map[]
    else
      var init := ds[..|ds| - 1];
      var r := Absorb(Accumulate(init), ds[|ds| - 1]);
      assert forall k :: Mentioned(ds, k) <==> Mentioned(init, k) || ds[|ds| - 1].index == k by {
        forall k ensures Mentioned(ds, k) <==> Mentioned(init, k) || ds[|ds| - 1].index == k {
          if Mentioned(ds, k) && ds[|ds| - 1].index != k {
            var i :| 0 <= i < |ds| && ds[i].index == k;
            assert init[i] == ds[i];
          }
          if Mentioned(init, k) {
            var i :| 0 <= i < |init| && init[i].index == k;
            assert ds[i] == init[i];
          }
        }
      }
      r
  }

  /** Reference: the in-order concatenation of the index's argument
      fragments. */
  function ArgumentsOf(ds: seq<ToolCallDelta>, k: int): string {
    if |ds| == 0 then ""
    else ArgumentsOf(ds[..|ds| - 1], k) + (if ds[|ds| - 1].index == k then ds[|ds| - 1].arguments else "")
  }

  datatype Field = IdField | NameField

  function FieldOf(d: ToolCallDelta, f: Field): string {
    match f
    case IdField => d.id
    case NameField => d.name
  }

  /** Reference: the last non-empty value of a field among the index's
      fragments, "" when there is none. */
  function LastNonEmpty(ds: seq<ToolCallDelta>, k: int, f: Field): string {
    if |ds| == 0 then ""
    else if ds[|ds| - 1].index == k && FieldOf(ds[|ds| - 1], f) != "" then FieldOf(ds[|ds| - 1], f)
    else LastNonEmpty(ds[..|ds| - 1], k, f)
  }

  predicate Mentioned(ds: seq<ToolCallDelta>, k: int) {
    exists i :: 0 <= i < |ds| && ds[i].index == k
  }

  /** The accumulated entry of each index is exactly what its fragments
      say: arguments concatenated in arrival order, id and name the last
      non-empty values; there is an entry exactly for the indices seen. */
  lemma {:induction false} AccumulateSpec(ds: seq<ToolCallDelta>, k: int)
    ensures k in Accumulate(ds) <==> Mentioned(ds, k)
    ensures k in Accumulate(ds) ==>
      Accumulate(ds)[k] == PendingCall(LastNonEmpty(ds, k, IdField), LastNonEmpty(ds, k, NameField), ArgumentsOf(ds, k))
  {
    if |ds| > 0 {
      var init := ds[..|ds| - 1];
      var d := ds[|ds| - 1];
      AccumulateSpec(init, k);
      if d.index == k && k !in Accumulate(init) {
        ArgumentsUnmentioned(init, k);
        LastUnmentioned(init, k, IdField);
        LastUnmentioned(init, k, NameField);
      }
    }
  }

  lemma {:induction false} ArgumentsUnmentioned(ds: seq<ToolCallDelta>, k: int)
    requires !Mentioned(ds, k)
    ensures ArgumentsOf(ds, k) == ""
  {
    if |ds| > 0 {
      var init := ds[..|ds| - 1];
      assert !Mentioned(init, k) by {
        forall i | 0 <= i < |init|
          ensures init[i].index != k
        {
          assert init[i] == ds[i];
        }
      }
      ArgumentsUnmentioned(init, k);
    }
  }

  lemma {:induction false} LastUnmentioned(ds: seq<ToolCallDelta>, k: int, f: Field)
    requires !Mentioned(ds, k)
    ensures LastNonEmpty(ds, k, f) == ""
  {
    if |ds| > 0 {
      var init := ds[..|ds| - 1];
      assert !Mentioned(init, k) by {
        forall i | 0 <= i < |init|
          ensures init[i].index != k
        {
          assert init[i] == ds[i];
        }
      }
      LastUnmentioned(init, k, f);
    }
  }

  /** All tool-call fragments of a stream, chunk by chunk. */
  function StreamDeltas(chunks: seq<Chunk>): seq<ToolCallDelta> {
    if |chunks| == 0 then [] else StreamDeltas(chunks[..|chunks| - 1]) + chunks[|chunks| - 1].calls
  }

  /** The assistant's full text: the concatenated deltas. */
  function FullText(chunks: seq<Chunk>): string {
    if |chunks| == 0 then "" else FullText(chunks[..|chunks| - 1]) + chunks[|chunks| - 1].content
  }

  // ---------------------------------------------------------------------
  // Chat events and the processing of completed tool calls

  datatype ChatEvent =
    | ModeSwitch(mode: Mode, persona: Object)
    | ChatStart
    | ChatChunk(text: string, done: bool)
    | ToolResult(tool: string, result: Object)
    | ChatError

  /** A completed call that sends a `tool_result`: name and arguments are
      non-empty, the arguments parse, and the tool accepts the value. */
  predicate Fires(c: PendingCall, parse: string -> Option<Json>) {
    c.name != "" && c.arguments != "" && parse(c.arguments).Some?
    && Tools.ApplyTool(c.name, parse(c.arguments).value).Some?
  }

  /** A completed call that raises out of the loop: a known tool given a
      parsed value that is not an object. */
  predicate Raises(c: PendingCall, parse: string -> Option<Json>) {
    c.name != "" && c.arguments != "" && parse(c.arguments).Some?
    && Tools.ApplyTool(c.name, parse(c.arguments).value).None?
  }

  /** What one completed call does in the loop. */
  datatype CallOutcome = Skip | Send(event: ChatEvent) | Raise

  function CallOutcomeOf(c: PendingCall, parse: string -> Option<Json>): (r: CallOutcome)
    ensures r.Send? <==> Fires(c, parse)
    ensures r.Raise? <==> Raises(c, parse)
    ensures r.Send? ==>
      r.event == ToolResult(c.name, Tools.ApplyTool(c.name, parse(c.arguments).value).value)
  {
    if c.name == "" || c.arguments == "" then Skip
    else
      match parse(c.arguments)
      case None => Skip
      case Some(arguments) =>
        match Tools.ApplyTool(c.name, arguments)
        case None => Raise
        case Some(result) => Send(ToolResult(c.name, result))
  }

  /** The loop's result: the events sent, the indices they came from, and
      whether an exception left the loop. */
  datatype Processed = Processed(sent: seq<ChatEvent>, fired: seq<int>, failed: bool)

  /** The loop over completed calls, in the order of `keys`. */
  function ProcessCalls(calls: PendingCalls, keys: seq<int>, parse: string -> Option<Json>): (r: Processed)
    requires forall i :: 0 <= i < |keys| ==> keys[i] in calls
    ensures |r.sent| == |r.fired|
    ensures forall i :: 0 <= i < |r.fired| ==>
      r.fired[i] in keys && CallOutcomeOf(calls[r.fired[i]], parse) == Send(r.sent[i])
    decreases |keys|
  {
    if |keys| == 0 then Processed([], [], false)
    else
      var rest := ProcessCalls(calls, keys[1..], parse);
      assert forall x :: x in keys[1..] ==> x in keys;
      match CallOutcomeOf(calls[keys[0]], parse)
      case Skip => rest
      case Raise => Processed([], [], true)
      case Send(event) =>
        SentCons(calls, keys, parse, event, rest);
        Processed([event] + rest.sent, [keys[0]] + rest.fired, rest.failed)
  }

  /** A firing first call puts its result in front of the others'. */
  lemma SentCons(calls: PendingCalls, keys: seq<int>, parse: string -> Option<Json>, event: ChatEvent, rest: Processed)
    requires |keys| > 0 && keys[0] in calls
    requires CallOutcomeOf(calls[keys[0]], parse) == Send(event)
    requires |rest.sent| == |rest.fired|
    requires forall i :: 0 <= i < |rest.fired| ==>
      rest.fired[i] in keys[1..] && rest.fired[i] in calls && CallOutcomeOf(calls[rest.fired[i]], parse) == Send(rest.sent[i])
    ensures var r := Processed([event] + rest.sent, [keys[0]] + rest.fired, rest.failed);
      forall i :: 0 <= i < |r.fired| ==>
        r.fired[i] in keys && CallOutcomeOf(calls[r.fired[i]], parse) == Send(r.sent[i])
  {
    var r := Processed([event] + rest.sent, [keys[0]] + rest.fired, rest.failed);
    forall i | 0 <= i < |r.fired|
      ensures r.fired[i] in keys && CallOutcomeOf(calls[r.fired[i]], parse) == Send(r.sent[i])
    {
      if i > 0 {
        assert r.fired[i] == rest.fired[i - 1] && r.sent[i] == rest.sent[i - 1];
        var j :| 0 <= j < |keys[1..]| && keys[1..][j] == rest.fired[i - 1];
        assert keys[j + 1] == r.fired[i];
      }
    }
  }

  /** Some key raises exactly when the first does or one of the others. */
  lemma RaiseInTail(calls: PendingCalls, keys: seq<int>, parse: string -> Option<Json>)
    requires |keys| > 0 && forall i :: 0 <= i < |keys| ==> keys[i] in calls
    ensures (exists i :: 0 <= i < |keys| && CallOutcomeOf(calls[keys[i]], parse).Raise?)
      <==> CallOutcomeOf(calls[keys[0]], parse).Raise?
           || exists i :: 0 <= i < |keys[1..]| && CallOutcomeOf(calls[keys[1..][i]], parse).Raise?
  {
    if exists i :: 0 <= i < |keys| && CallOutcomeOf(calls[keys[i]], parse).Raise? {
      var i :| 0 <= i < |keys| && CallOutcomeOf(calls[keys[i]], parse).Raise?;
      if i > 0 { assert keys[1..][i - 1] == keys[i]; }
    }
    if exists i :: 0 <= i < |keys[1..]| && CallOutcomeOf(calls[keys[1..][i]], parse).Raise? {
      var i :| 0 <= i < |keys[1..]| && CallOutcomeOf(calls[keys[1..][i]], parse).Raise?;
      assert keys[1..][i] == keys[i + 1];
    }
  }

  /** The loop raises exactly when one of the calls raises. */
  lemma {:induction false} ProcessCallsFails(calls: PendingCalls, keys: seq<int>, parse: string -> Option<Json>)
    requires forall i :: 0 <= i < |keys| ==> keys[i] in calls
    ensures ProcessCalls(calls, keys, parse).failed
      <==> exists i :: 0 <= i < |keys| && CallOutcomeOf(calls[keys[i]], parse).Raise?
    decreases |keys|
  {
    if |keys| > 0 {
      ProcessCallsFails(calls, keys[1..], parse);
      RaiseInTail(calls, keys, parse);
    }
  }

  /** Results are sent in the order of the keys. */
  lemma {:induction false} ProcessCallsOrdered(calls: PendingCalls, keys: seq<int>, parse: string -> Option<Json>)
    requires forall i :: 0 <= i < |keys| ==> keys[i] in calls
    requires Sorting.Increasing(keys)
    ensures Sorting.Increasing(ProcessCalls(calls, keys, parse).fired)
    decreases |keys|
  {
    if |keys| > 0 {
      var tail := keys[1..];
      assert Sorting.Increasing(tail) by {
        forall i, j | 0 <= i < j < |tail|
          ensures tail[i] < tail[j]
        {
          assert tail[i] == keys[i + 1] && tail[j] == keys[j + 1];
        }
      }
      var rest := ProcessCalls(calls, tail, parse);
      ProcessCallsOrdered(calls, tail, parse);
      if CallOutcomeOf(calls[keys[0]], parse).Send? {
        forall i | 0 <= i < |rest.fired|
          ensures keys[0] < rest.fired[i]
        {
          var j :| 0 <= j < |tail| && tail[j] == rest.fired[i];
          assert keys[j + 1] == rest.fired[i];
        }
        Sorting.PrependMin(keys[0], rest.fired);
      }
    }
  }

  /** Unless an exception ends the loop, every firing call sends its
      result. */
  lemma {:induction false} ProcessCallsComplete(calls: PendingCalls, keys: seq<int>, parse: string -> Option<Json>)
    requires forall i :: 0 <= i < |keys| ==> keys[i] in calls
    ensures var r := ProcessCalls(calls, keys, parse);
      !r.failed ==> forall i :: 0 <= i < |keys| && CallOutcomeOf(calls[keys[i]], parse).Send? ==> keys[i] in r.fired
    decreases |keys|
  {
    if |keys| > 0 {
      var r := ProcessCalls(calls, keys, parse);
      var rest := ProcessCalls(calls, keys[1..], parse);
      ProcessCallsComplete(calls, keys[1..], parse);
      if !r.failed {
        forall i | 0 <= i < |keys| && CallOutcomeOf(calls[keys[i]], parse).Send?
          ensures keys[i] in r.fired
        {
          if i > 0 {
            assert keys[1..][i - 1] == keys[i];
          }
        }
      }
    }
  }

  /** `for idx in sorted(tool_calls.keys())` */
  function ProcessToolCalls(calls: PendingCalls, parse: string -> Option<Json>): (r: Processed)
    ensures |r.sent| == |r.fired|
    ensures forall i :: 0 <= i < |r.fired| ==>
      r.fired[i] in calls && CallOutcomeOf(calls[r.fired[i]], parse) == Send(r.sent[i])
    ensures Sorting.Increasing(r.fired)
    ensures forall k :: k in r.fired ==> k in calls && Fires(calls[k], parse)
    ensures r.failed <==> exists k :: k in calls && Raises(calls[k], parse)
    ensures !r.failed ==> forall k :: k in calls && Fires(calls[k], parse) ==> k in r.fired
  {
    var keys := Sorting.SortedKeys(calls.Keys);
    var r := ProcessCalls(calls, keys, parse);
    ProcessCallsOrdered(calls, keys, parse);
    FiredFire(calls, keys, parse);
    FiringFired(calls, keys, parse);
    ProcessCallsFails(calls, keys, parse);
    SomeKeyRaises(calls, keys, parse);
    r
  }

  /** Every index a result came from is a firing call. */
  lemma FiredFire(calls: PendingCalls, keys: seq<int>, parse: string -> Option<Json>)
    requires forall i :: 0 <= i < |keys| ==> keys[i] in calls
    ensures forall k :: k in ProcessCalls(calls, keys, parse).fired ==> k in calls && Fires(calls[k], parse)
  {
    var r := ProcessCalls(calls, keys, parse);
    forall k | k in r.fired
      ensures k in calls && Fires(calls[k], parse)
    {
      var i :| 0 <= i < |r.fired| && r.fired[i] == k;
      assert CallOutcomeOf(calls[r.fired[i]], parse).Send?;
    }
  }

  /** Over a listing of every key and unless the loop raised, every firing
      call sent its result. */
  lemma FiringFired(calls: PendingCalls, keys: seq<int>, parse: string -> Option<Json>)
    requires forall i :: 0 <= i < |keys| ==> keys[i] in calls
    requires forall k :: k in calls.Keys ==> k in keys
    ensures var r := ProcessCalls(calls, keys, parse);
      !r.failed ==> forall k :: k in calls && Fires(calls[k], parse) ==> k in r.fired
  {
    var r := ProcessCalls(calls, keys, parse);
    ProcessCallsComplete(calls, keys, parse);
    if !r.failed {
      forall k | k in calls && Fires(calls[k], parse)
        ensures k in r.fired
      {
        assert k in keys;
        var i :| 0 <= i < |keys| && keys[i] == k;
        assert CallOutcomeOf(calls[keys[i]], parse).Send?;
      }
    }
  }

  /** Over a listing of every key, some listed call raises exactly when
      some call raises. */
  lemma SomeKeyRaises(calls: PendingCalls, keys: seq<int>, parse: string -> Option<Json>)
    requires forall i :: 0 <= i < |keys| ==> keys[i] in calls
    requires forall k :: k in calls.Keys ==> k in keys
    ensures (exists i :: 0 <= i < |keys| && CallOutcomeOf(calls[keys[i]], parse).Raise?)
            <==> exists k :: k in calls && Raises(calls[k], parse)
  {
    if exists i :: 0 <= i < |keys| && CallOutcomeOf(calls[keys[i]], parse).Raise? {
      var i :| 0 <= i < |keys| && CallOutcomeOf(calls[keys[i]], parse).Raise?;
      assert keys[i] in calls && Raises(calls[keys[i]], parse);
    }
    if exists k :: k in calls && Raises(calls[k], parse) {
      var k :| k in calls && Raises(calls[k], parse);
      assert k in keys;
      var i :| 0 <= i < |keys| && keys[i] == k;
      assert CallOutcomeOf(calls[keys[i]], parse).Raise?;
    }
  }

  /** A call with an empty name or arguments never sends a result. */
  lemma EmptyCallsAreSkipped(calls: PendingCalls, parse: string -> Option<Json>, k: int)
    requires k in calls && (calls[k].name == "" || calls[k].arguments == "")
    ensures k !in ProcessToolCalls(calls, parse).fired
  {
  }

  // ---------------------------------------------------------------------
  // One chat turn

  /** What the model client does for one request. */
  datatype Reply =
    | CallFailed
    | Streamed(chunks: seq<Chunk>, completed: bool)

  datatype Turn = Turn(state: ChatState, sent: seq<ChatEvent>)

  function Welcome(name: string): string {
    "Presto-Change-O! I'm now your " + name + " assistant. How can I help you today?"
  }

  /** The text events a stream produces: one per non-empty delta. */
  function TextEvents(chunks: seq<Chunk>): (r: seq<ChatEvent>)
    ensures forall i :: 0 <= i < |r| ==> r[i].ChatChunk? && !r[i].done && r[i].text != ""
    ensures |r| == NonEmptyDeltas(chunks)
  {
    if |chunks| == 0 then []
    else
      var init := chunks[..|chunks| - 1];
      var last := chunks[|chunks| - 1];
      NonEmptyDeltasSnoc(init, last);
      assert chunks == init + [last];
      TextEvents(init) + (if last.content != "" then [ChatChunk(last.content, false)] else [])
  }

  /** How many chunks carry text, counted from the front. */
  function NonEmptyDeltas(chunks: seq<Chunk>): (n: nat)
    ensures n <= |chunks|
  {
    if |chunks| == 0 then 0 else (if chunks[0].content != "" then 1 else 0) + NonEmptyDeltas(chunks[1..])
  }

  lemma {:induction false} NonEmptyDeltasSnoc(chunks: seq<Chunk>, c: Chunk)
    ensures NonEmptyDeltas(chunks + [c]) == NonEmptyDeltas(chunks) + (if c.content != "" then 1 else 0)
  {
    if |chunks| == 0 {
      assert chunks + [c] == [c];
      assert [c][1..] == [];
    } else {
      assert (chunks + [c])[1..] == chunks[1..] + [c];
      NonEmptyDeltasSnoc(chunks[1..], c);
    }
  }

  /** The forwarded texts put together are the full response. */
  lemma {:induction false} TextEventsSpellFullText(chunks: seq<Chunk>)
    ensures Texts(TextEvents(chunks)) == FullText(chunks)
  {
    if |chunks| > 0 {
      var init := chunks[..|chunks| - 1];
      TextEventsSpellFullText(init);
      var last := chunks[|chunks| - 1];
      TextsAppend(TextEvents(init), if last.content != "" then [ChatChunk(last.content, false)] else []);
    }
  }

  function Texts(events: seq<ChatEvent>): string {
    if |events| == 0 then ""
    else Texts(events[..|events| - 1]) + (if events[|events| - 1].ChatChunk? then events[|events| - 1].text else "")
  }

  lemma {:induction false} TextsAppend(a: seq<ChatEvent>, b: seq<ChatEvent>)
    ensures Texts(a + b) == Texts(a) + Texts(b)
    decreases |b|
  {
    if |b| > 0 {
      assert (a + b)[..|a + b| - 1] == a + b[..|b| - 1];
      TextsAppend(a, b[..|b| - 1]);
    } else {
      assert a + b == a;
    }
  }

  /** handle_chat_message. `setMode` is the mode store's switch (None for an
      unknown id), `personaFor` the persona generated for a mode with the
      session seed, `clientReady` whether the model client could be
      obtained, and `llm` the streaming call for a system prompt and the
      history. */
  function HandleChatMessage(
    st: ChatState, text: string, current: Mode,
    setMode: string -> Option<Mode>, personaFor: string -> Object,
    money: Json -> Option<string>, clientReady: bool,
    llm: (string, seq<Message>) -> Reply, parse: string -> Option<Json>): (r: Turn)
    ensures |r.sent| >= 2
    ensures r.sent[0].ModeSwitch? || r.sent[0] == ChatStart
    ensures r.sent[|r.sent| - 1] == ChatChunk("", true) || r.sent[|r.sent| - 1] == ChatError
    ensures |st.history| <= HistoryLimit ==> |r.state.history| <= HistoryLimit
    ensures r.sent[0].ModeSwitch? ==> r.state.history == [] && DetectModeSwitch(text).Some?
    ensures !r.sent[0].ModeSwitch? ==> r.state.persona == st.persona
    ensures r.sent[0].ModeSwitch? <==>
      DetectModeSwitch(text).Some? && setMode(DetectModeSwitch(text).value).Some?
    ensures DetectModeSwitch(text).Some? && setMode(DetectModeSwitch(text).value).Some? ==>
      var id := DetectModeSwitch(text).value;
      var m := setMode(id).value;
      r == Turn(ChatState([], personaFor(id)),
        [ModeSwitch(m, personaFor(id)), ChatStart, ChatChunk(Welcome(m.name), false), ChatChunk("", true)])
  {
    var switched := match DetectModeSwitch(text)
      case Some(id) => (match setMode(id) case Some(m) => Some((id, m)) case None => None)
      case None => None;
    if switched.Some? then
      var (id, m) := switched.value;
      var persona := personaFor(id);
      Turn(ChatState([], persona),
        [ModeSwitch(m, persona), ChatStart, ChatChunk(Welcome(m.name), false), ChatChunk("", true)])
    else if !clientReady then
      Turn(st, [ChatStart, ChatError])
    else
      var history := AddToHistory(st.history, Message("user", text));
      var st1 := st.(history := history);
      match BuildSystemPrompt(current, st.persona, money)
      case None => Turn(st1, [ChatStart, ChatError])
      case Some(prompt) =>
        match llm(prompt, history)
        case CallFailed => Turn(st1, [ChatStart, ChatError])
        case Streamed(chunks, completed) => StreamedTurn(st1, chunks, completed, parse)
  }

  /** A detected mode that the store accepts ends the turn at once: the
      history is cleared, the new mode's persona is generated, and the
      browser gets the switch, a start, the welcome text and the done
      marker, whether or not a model client is available. */
  lemma SwitchTurn(
    st: ChatState, text: string, current: Mode,
    setMode: string -> Option<Mode>, personaFor: string -> Object,
    money: Json -> Option<string>, clientReady: bool,
    llm: (string, seq<Message>) -> Reply, parse: string -> Option<Json>,
    id: string, m: Mode)
    requires DetectModeSwitch(text) == Some(id) && setMode(id) == Some(m)
    ensures HandleChatMessage(st, text, current, setMode, personaFor, money, clientReady, llm, parse)
      == Turn(ChatState([], personaFor(id)),
           [ModeSwitch(m, personaFor(id)), ChatStart, ChatChunk(Welcome(m.name), false), ChatChunk("", true)])
  {
  }

  /** The part of handle_chat_message after the stream: its text deltas are
      forwarded; a completed stream records the reply and runs the tool
      calls; the turn ends with the done marker unless something raised. */
  function StreamedTurn(st: ChatState, chunks: seq<Chunk>, completed: bool, parse: string -> Option<Json>): (r: Turn)
    ensures |r.sent| >= 2 && r.sent[0] == ChatStart
    ensures r.sent[|r.sent| - 1] == ChatChunk("", true) || r.sent[|r.sent| - 1] == ChatError
    ensures |st.history| <= HistoryLimit ==> |r.state.history| <= HistoryLimit
    ensures r.state.persona == st.persona
    ensures !completed ==> r.state == st && r.sent[|r.sent| - 1] == ChatError
    ensures completed && FullText(chunks) != "" ==>
      r.state.history == AddToHistory(st.history, Message("assistant", FullText(chunks)))
    ensures completed && !ProcessToolCalls(Accumulate(StreamDeltas(chunks)), parse).failed ==>
      r.sent == [ChatStart] + TextEvents(chunks) + ProcessToolCalls(Accumulate(StreamDeltas(chunks)), parse).sent
                + [ChatChunk("", true)]
  {
    var texts := TextEvents(chunks);
    if !completed then Turn(st, [ChatStart] + texts + [ChatError])
    else
      var full := FullText(chunks);
      var st2 := if full != "" then st.(history := AddToHistory(st.history, Message("assistant", full))) else st;
      var processed := ProcessToolCalls(Accumulate(StreamDeltas(chunks)), parse);
      Turn(st2, [ChatStart] + texts + processed.sent
        + [if processed.failed then ChatError else ChatChunk("", true)])
  }

  /** A completed stream whose tool calls all behave is forwarded as: start,
      the non-empty text deltas in order, one result per firing call in
      ascending index order, and the done marker; the exchange is recorded
      in the history. */
  lemma CompletedTurn(
    st: ChatState, text: string, current: Mode,
    setMode: string -> Option<Mode>, personaFor: string -> Object,
    money: Json -> Option<string>,
    llm: (string, seq<Message>) -> Reply, parse: string -> Option<Json>,
    chunks: seq<Chunk>)
    requires DetectModeSwitch(text).None? || setMode(DetectModeSwitch(text).value).None?
    requires BuildSystemPrompt(current, st.persona, money).Some?
    requires llm(BuildSystemPrompt(current, st.persona, money).value,
                 AddToHistory(st.history, Message("user", text))) == Streamed(chunks, true)
    requires !ProcessToolCalls(Accumulate(StreamDeltas(chunks)), parse).failed
    requires FullText(chunks) != ""
    ensures var r := HandleChatMessage(st, text, current, setMode, personaFor, money, true, llm, parse);
      var p := ProcessToolCalls(Accumulate(StreamDeltas(chunks)), parse);
      r.sent == [ChatStart] + TextEvents(chunks) + p.sent + [ChatChunk("", true)]
      && r.state.history == AddAll(st.history, [Message("user", text), Message("assistant", FullText(chunks))])
  {
    var h := AddToHistory(st.history, Message("user", text));
    ChatTurnStreams(st, text, current, setMode, personaFor, money, llm, parse, chunks);
    TwoAdditions(st.history, Message("user", text), Message("assistant", FullText(chunks)));
  }

  /** Without a switch (no phrase, or a detected mode that does not exist),
      a ready client and a prompt, the turn is the streamed part on the history with the user's message added. */
  lemma ChatTurnStreams(
    st: ChatState, text: string, current: Mode,
    setMode: string -> Option<Mode>, personaFor: string -> Object,
    money: Json -> Option<string>,
    llm: (string, seq<Message>) -> Reply, parse: string -> Option<Json>,
    chunks: seq<Chunk>)
    requires DetectModeSwitch(text).None? || setMode(DetectModeSwitch(text).value).None?
    requires BuildSystemPrompt(current, st.persona, money).Some?
    requires llm(BuildSystemPrompt(current, st.persona, money).value,
                 AddToHistory(st.history, Message("user", text))) == Streamed(chunks, true)
    ensures HandleChatMessage(st, text, current, setMode, personaFor, money, true, llm, parse)
      == StreamedTurn(st.(history := AddToHistory(st.history, Message("user", text))), chunks, true, parse)
  {
  }

  lemma TwoAdditions(h: seq<Message>, a: Message, b: Message)
    ensures AddAll(h, [a, b]) == AddToHistory(AddToHistory(h, a), b)
  {
    var ms := [a, b];
    assert ms[1..] == [b] && ms[1..][1..] == [];
    var h2 := AddToHistory(AddToHistory(h, a), b);
    assert AddAll(AddToHistory(h, a), ms[1..]) == AddAll(h2, []) == h2;
  }
}
