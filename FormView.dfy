/**
 * The recharge form's progressive disclosure (static/js/script.js): which
 * field groups are visible for the chosen payment method and what has been
 * typed so far, and the `show` / `hide` / `resetForm` helpers that toggle
 * the CSS classes `is-enter` and `is-hidden` on page elements.
 *
 * The page is the class list of each element it looks up by id, kept as a
 * map from the element to its set of class names.
 */
module FormView {
  import opened PyText
  import opened JsText

  // ---------------------------------------------------------------------
  // The decision made by updateFieldsVisibility
  // ---------------------------------------------------------------------

  /** Which of the four dependent groups end up shown. */
  datatype Visibility = Visibility(nome: bool, cartao: bool, valor: bool, submit: bool)

  /** `valorValue.length > 0 && parseFloat(valorValue.replace(",", ".")) > 0`. */
  predicate ValueAccepted(valorValue: string)
  {
    valorValue != [] && ReadsPositive(ReplaceFirst(valorValue, ',', '.'))
  }

  /**
   * The cascade of `updateFieldsVisibility` over its three tests (the name
   * is filled, the card matches the pattern, the value is accepted): PIX
   * discloses name, then card, then value, then submit; DINHEIRO skips the
   * name; any other choice hides every group. Stated flat, each group is
   * shown exactly when the one before it is and its own test passes.
   */
  function Cascade(forma: string, nomeFilled: bool, cartaoMatches: bool, valorAccepted: bool): (v: Visibility)
    ensures v.nome <==> forma == "PIX"
    ensures v.cartao <==> forma == "DINHEIRO" || (forma == "PIX" && nomeFilled)
    ensures v.valor <==> v.cartao && cartaoMatches
    ensures v.submit <==> v.valor && valorAccepted
  {
    if forma == "PIX" then
      if nomeFilled then
        if cartaoMatches then Visibility(true, true, true, valorAccepted)
        else Visibility(true, true, false, false)
      else Visibility(true, false, false, false)
    else if forma == "DINHEIRO" then
      if cartaoMatches then Visibility(false, true, true, valorAccepted)
      else Visibility(false, true, false, false)
    else Visibility(false, false, false, false)
  }

  /**
   * `updateFieldsVisibility` as a function of the select's value and the
   * three raw input values: an unknown payment method hides every group,
   * and the submit button needs the card group and a non-blank value.
   */
  function FieldsVisibility(forma: string, nome: string, cartao: string, valor: string): (v: Visibility)
    ensures forma != "PIX" && forma != "DINHEIRO" ==> v == Visibility(false, false, false, false)
    ensures v.submit ==> v.valor && v.cartao && Trim(valor) != []
  {
    Cascade(forma, |Trim(nome)| > 0, MatchesCardPattern(Trim(cartao)), ValueAccepted(Trim(valor)))
  }

  /**
   * What `FieldsVisibility` decides, stated on the raw inputs: the name
   * group is shown for PIX only; the card group for DINHEIRO, or for PIX
   * once the name holds a character other than white space; the value
   * group once the trimmed card is four to six ASCII digits; the submit
   * button once the trimmed value is accepted. Any other choice hides all four.
   */
  lemma FieldsVisibilityMeaning(forma: string, nome: string, cartao: string, valor: string)
    ensures var v := FieldsVisibility(forma, nome, cartao, valor);
            && (forma != "PIX" && forma != "DINHEIRO" ==> v == Visibility(false, false, false, false))
            && (forma == "DINHEIRO" ==> !v.nome && v.cartao)
            && (forma == "PIX" ==> v.nome && (v.cartao <==> exists i :: 0 <= i < |nome| && !IsJsSpace(nome[i])))
            && (v.valor <==> (v.cartao && 4 <= |Trim(cartao)| <= 6
                              && forall i :: 0 <= i < |Trim(cartao)| ==> IsAsciiDigit(Trim(cartao)[i])))
            && (v.submit <==> v.valor && ValueAccepted(Trim(valor)))
  {
  }

  /**
   * A value typed with a decimal comma is accepted: `"10,50"` becomes
   * `"10.50"`, which reads as positive, so PIX with a name and a
   * four-digit card shows the submit button.
   */
  lemma CommaDecimalValueUnlocksSubmit()
    ensures FieldsVisibility("PIX", "Ana", "1234", "10,50") == Visibility(true, true, true, true)
  {
    assert TrimStart("Ana") == "Ana";
    CardDigits("1234");
    CommaValueAccepted("10,50");
  }

  /** `"10,50"` is accepted: trimming keeps it, its first comma becomes a point, and `"10.50"` reads as positive. */
  lemma CommaValueAccepted(s: string)
    requires s == "10,50"
    ensures ValueAccepted(Trim(s))
  {
    TypedValueIsTrimmed(s);
    CommaBecomesPoint(s);
    PointFiftyPositive("10.50");
  }

  /** `"10,50"` has no surrounding white space for `trim()` to remove. */
  lemma TypedValueIsTrimmed(s: string)
    requires s == "10,50"
    ensures Trim(s) == s
  {
    assert TrimStart(s) == s;
    assert TrimEnd(s) == s;
  }

  /** `"10,50".replace(",", ".")` is `"10.50"`. */
  lemma CommaBecomesPoint(s: string)
    requires s == "10,50"
    ensures ReplaceFirst(s, ',', '.') == "10.50"
  {
    assert IndexOf(s, ',') == 2;
  }

  /** `parseFloat("10.50") > 0`: the leading digits `10` are not all zero. */
  lemma PointFiftyPositive(s: string)
    requires s == "10.50"
    ensures ReadsPositive(s)
  {
    assert DigitRun("10") == 2;
    assert !AllZeros("10") by {
      assert "10"[0] == '1';
    }
    assert s == "10" + ".50";
    LeadingNonZeroDigitsArePositive("10", ".50");
  }

  /** A card number of four digits, without surrounding white space, matches the pattern. */
  lemma CardDigits(card: string)
    requires card == "1234"
    ensures Trim(card) == card && MatchesCardPattern(card)
  {
    assert TrimStart(card) == card;
    assert TrimEnd(card) == card;
    FourDigits(card);
  }

  /** `"1234"` is four ASCII digits. */
  lemma FourDigits(card: string)
    requires card == "1234"
    ensures MatchesCardPattern(card)
  {
    assert DigitRun(card[3..]) == 1;
    assert DigitRun(card[1..]) == 3;
  }

  // ---------------------------------------------------------------------
  // Class lists: show and hide
  // ---------------------------------------------------------------------

  const HiddenClass := "is-hidden"
  const EnterClass := "is-enter"

  /** `show(el)`: removes `is-hidden` and adds `is-enter`, keeping every other class. */
  function Shown(classes: set<string>): (r: set<string>)
    ensures EnterClass in r && HiddenClass !in r
    ensures forall c :: c != EnterClass && c != HiddenClass ==> (c in r <==> c in classes)
  {
    classes - {HiddenClass} + {EnterClass}
  }

  /** The class-list part of `hide(el)`: removes `is-enter` and adds `is-hidden`, keeping every other class. */
  function Hidden(classes: set<string>): (r: set<string>)
    ensures HiddenClass in r && EnterClass !in r
    ensures forall c :: c != EnterClass && c != HiddenClass ==> (c in r <==> c in classes)
  {
    classes - {EnterClass} + {HiddenClass}
  }

  /** `show` when `shown`, `hide` otherwise. */
  function Displayed(shown: bool, classes: set<string>): set<string>
  {
    if shown then Shown(classes) else Hidden(classes)
  }

  /**
   * A shown element carries `is-enter` and not `is-hidden`, a hidden one the
   * reverse, and either way every other class of the element is kept.
   */
  lemma DisplayedKeepsOtherClasses(shown: bool, classes: set<string>)
    ensures var r := Displayed(shown, classes);
            && (shown ==> EnterClass in r && HiddenClass !in r)
            && (!shown ==> HiddenClass in r && EnterClass !in r)
            && forall c :: c != EnterClass && c != HiddenClass ==> (c in r <==> c in classes)
  {
  }

  /** Only the last of a run of `show`/`hide` calls on an element matters. */
  lemma LastToggleWins(classes: set<string>, first: bool, second: bool)
    ensures Displayed(second, Displayed(first, classes)) == Displayed(second, classes)
  {
    var r := Displayed(second, Displayed(first, classes));
    forall c ensures c in r <==> c in Displayed(second, classes) {
      DisplayedKeepsOtherClasses(first, classes);
    }
  }

  /** When the callback given to `hide` runs. */
  datatype CallbackTiming =
    | NoCallback       // no function was passed
    | Immediate        // `is-enter` was absent: called directly
    | OnTransitionEnd  // `is-enter` was present: called on the `max-height` transitionend

  /** The page elements the form script looks up by id. */
  datatype Part =
    | FormaGroup | NomeGroup | CartaoGroup | ValorGroup | SubmitGroup
    | FormContainer | LoadingContainer | SuccessContainer | ErrorContainer
  {
    /** The four containers: the form, loading, success and error panels. */
    predicate IsContainer()
    {
      FormContainer? || LoadingContainer? || SuccessContainer? || ErrorContainer?
    }
  }

  /** What the four inputs hold. */
  datatype FormValues = FormValues(forma: string, nome: string, cartao: string, valor: string)

  /** The class lists after each dependent group is shown or hidden as `v` says; other elements keep theirs. */
  function Disclosed(classes: map<Part, set<string>>, v: Visibility): map<Part, set<string>>
    requires NomeGroup in classes && CartaoGroup in classes && ValorGroup in classes && SubmitGroup in classes
  {
    classes[NomeGroup := Displayed(v.nome, classes[NomeGroup])]
           [CartaoGroup := Displayed(v.cartao, classes[CartaoGroup])]
           [ValorGroup := Displayed(v.valor, classes[ValorGroup])]
           [SubmitGroup := Displayed(v.submit, classes[SubmitGroup])]
  }

  /** The class lists once `show` has run on element `p`. */
  function ShowPart(classes: map<Part, set<string>>, p: Part): map<Part, set<string>>
    requires p in classes
  {
    classes[p := Shown(classes[p])]
  }

  /** The class lists once `hide` has run on element `p`. */
  function HidePart(classes: map<Part, set<string>>, p: Part): map<Part, set<string>>
    requires p in classes
  {
    classes[p := Hidden(classes[p])]
  }

  /** The `show`/`hide` calls of `resetForm` on the four containers, in order. */
  function ResetContainers(classes: map<Part, set<string>>): map<Part, set<string>>
    requires forall p: Part :: p in classes
  {
    var c := ShowPart(classes, FormContainer);
    var c := HidePart(c, LoadingContainer);
    var c := HidePart(c, SuccessContainer);
    HidePart(c, ErrorContainer)
  }

  /** The `show`/`hide` calls of `resetForm` on the five field groups, in order. */
  function ResetGroups(classes: map<Part, set<string>>): map<Part, set<string>>
    requires forall p: Part :: p in classes
  {
    var c := ShowPart(classes, FormaGroup);
    var c := HidePart(c, NomeGroup);
    var c := HidePart(c, CartaoGroup);
    var c := HidePart(c, ValorGroup);
    HidePart(c, SubmitGroup)
  }

  /** The class lists after `resetForm`. */
  function ResetClasses(classes: map<Part, set<string>>): map<Part, set<string>>
    requires forall p: Part :: p in classes
  {
    ResetGroups(ResetContainers(classes))
  }

  /** `resetForm`'s first four calls show the form container and hide the other containers. */
  lemma ResetContainersEffect(classes: map<Part, set<string>>)
    requires forall p: Part :: p in classes
    ensures var r := ResetContainers(classes);
            && r.Keys == classes.Keys
            && forall p :: p in r ==> r[p] == (if p.IsContainer() then Displayed(p == FormContainer, classes[p]) else classes[p])
  {
  }

  /** `resetForm`'s last five calls show the payment-method group and hide the four dependent groups. */
  lemma ResetGroupsEffect(classes: map<Part, set<string>>)
    requires forall p: Part :: p in classes
    ensures var r := ResetGroups(classes);
            && r.Keys == classes.Keys
            && forall p :: p in r ==> r[p] == (if p.IsContainer() then classes[p] else Displayed(p == FormaGroup, classes[p]))
  {
    var shown := ShowPart(classes, FormaGroup);
    assert ResetGroups(classes) == Disclosed(shown, Visibility(false, false, false, false));
    DisclosedChangesOnlyGroups(shown, Visibility(false, false, false, false));
  }

  /**
   * After `resetForm` the form container and the payment-method group are
   * shown, every other element is hidden, and each keeps its other classes.
   */
  lemma ResetShowsOnlyFormAndChoice(classes: map<Part, set<string>>)
    requires forall p: Part :: p in classes
    ensures var r := ResetClasses(classes);
            && r.Keys == classes.Keys
            && forall p :: p in r ==> r[p] == Displayed(p == FormContainer || p == FormaGroup, classes[p])
  {
    ResetContainersEffect(classes);
    ResetGroupsEffect(ResetContainers(classes));
  }

  /** `Disclosed` changes only the four dependent groups, each as `v` says. */
  lemma DisclosedChangesOnlyGroups(classes: map<Part, set<string>>, v: Visibility)
    requires NomeGroup in classes && CartaoGroup in classes && ValorGroup in classes && SubmitGroup in classes
    ensures var r := Disclosed(classes, v);
            && r.Keys == classes.Keys
            && r[NomeGroup] == Displayed(v.nome, classes[NomeGroup])
            && r[CartaoGroup] == Displayed(v.cartao, classes[CartaoGroup])
            && r[ValorGroup] == Displayed(v.valor, classes[ValorGroup])
            && r[SubmitGroup] == Displayed(v.submit, classes[SubmitGroup])
            && forall p :: p in r && p !in {NomeGroup, CartaoGroup, ValorGroup, SubmitGroup} ==> r[p] == classes[p]
  {
  }

  /**
   * Re-running `updateFieldsVisibility` on unchanged values changes nothing
   * further: only the last `show`/`hide` of each group matters.
   */
  lemma {:induction false} DiscloseIsIdempotent(classes: map<Part, set<string>>, v: Visibility)
    requires NomeGroup in classes && CartaoGroup in classes && ValorGroup in classes && SubmitGroup in classes
    ensures Disclosed(Disclosed(classes, v), v) == Disclosed(classes, v)
  {
    LastToggleWins(classes[NomeGroup], v.nome, v.nome);
    LastToggleWins(classes[CartaoGroup], v.cartao, v.cartao);
    LastToggleWins(classes[ValorGroup], v.valor, v.valor);
    LastToggleWins(classes[SubmitGroup], v.submit, v.submit);
  }

  /** The recharge page: each element's class list, `aria-busy`, and the form's values. */
  class Page {
    var classes: map<Part, set<string>>
    var busy: bool
    var values: FormValues
    const defaults: FormValues  // what `form.reset()` restores

    /** Every element looked up by id exists on the page. */
    ghost predicate Valid()
      reads this
    {
      forall p: Part :: p in classes
    }

    constructor (classes: map<Part, set<string>>, values: FormValues, defaults: FormValues)
      requires forall p: Part :: p in classes
      ensures Valid() && this.classes == classes && this.values == values && this.defaults == defaults
      ensures !busy
    {
      this.classes := classes;
      this.values := values;
      this.defaults := defaults;
      busy := false;
    }

    /** `show(el)`; the element must exist, since `show` does not check for it. */
    method Show(p: Part)
      requires p in classes
      modifies this
      ensures old(Valid()) ==> Valid()
      ensures classes == ShowPart(old(classes), p)
      ensures busy == old(busy) && values == old(values)
    {
      classes := classes[p := Shown(classes[p])];
    }

    /**
     * `hide(el, callback)`: a missing element is left alone; otherwise its
     * classes are hidden, and a callback runs at once exactly when the
     * element did not carry `is-enter`, or else once its transition ends.
     */
    method Hide(p: Part, hasCallback: bool) returns (timing: CallbackTiming)
      modifies this
      ensures p !in old(classes) ==> classes == old(classes) && timing == NoCallback
      ensures p in old(classes) ==>
                && classes == HidePart(old(classes), p)
                && timing == (if !hasCallback then NoCallback
                              else if EnterClass in old(classes)[p] then OnTransitionEnd
                              else Immediate)
      ensures busy == old(busy) && values == old(values)
    {
      timing := NoCallback;
      if p !in classes {
        return;
      }
      var hadEnter := EnterClass in classes[p];
      classes := classes[p := Hidden(classes[p])];
      if hasCallback {
        timing := if hadEnter then OnTransitionEnd else Immediate;
      }
    }

    /** `hide(el)` without a callback, as every caller below uses it. */
    method HideGroup(p: Part)
      requires p in classes
      modifies this
      ensures old(Valid()) ==> Valid()
      ensures classes == HidePart(old(classes), p)
      ensures busy == old(busy) && values == old(values)
    {
      var _ := Hide(p, false);
    }

    /**
     * `updateFieldsVisibility()`: leaves each of the four dependent groups
     * shown or hidden as `FieldsVisibility` decides for the current values,
     * and every other element untouched.
     */
    method UpdateFieldsVisibility()
      requires Valid()
      modifies this
      ensures Valid() && busy == old(busy) && values == old(values)
      ensures classes == Disclosed(old(classes), FieldsVisibility(values.forma, values.nome, values.cartao, values.valor))
    {
      var forma := values.forma;
      var nomeValue := Trim(values.nome);
      var cartaoValue := Trim(values.cartao);
      var valorValue := Trim(values.valor);
      Disclose(forma, |nomeValue| > 0, MatchesCardPattern(cartaoValue), ValueAccepted(valorValue));
    }

    /** The `show`/`hide` calls of the cascade, given the outcome of its three tests. */
    method Disclose(forma: string, nomeFilled: bool, cartaoMatches: bool, valorAccepted: bool)
      requires Valid()
      modifies this
      ensures Valid() && busy == old(busy) && values == old(values)
      ensures classes == Disclosed(old(classes), Cascade(forma, nomeFilled, cartaoMatches, valorAccepted))
    {
      if forma == "PIX" {
        Show(NomeGroup);
        if nomeFilled {
          Show(CartaoGroup);
          if cartaoMatches {
            Show(ValorGroup);
            if valorAccepted {
              Show(SubmitGroup);
            } else {
              HideGroup(SubmitGroup);
            }
          } else {
            HideGroup(ValorGroup);
            HideGroup(SubmitGroup);
          }
        } else {
          HideGroup(CartaoGroup);
          HideGroup(ValorGroup);
          HideGroup(SubmitGroup);
        }
      } else if forma == "DINHEIRO" {
        HideGroup(NomeGroup);
        Show(CartaoGroup);
        if cartaoMatches {
          Show(ValorGroup);
          if valorAccepted {
            Show(SubmitGroup);
          } else {
            HideGroup(SubmitGroup);
          }
        } else {
          HideGroup(ValorGroup);
          HideGroup(SubmitGroup);
        }
      } else {
        HideGroup(NomeGroup);
        HideGroup(CartaoGroup);
        HideGroup(ValorGroup);
        HideGroup(SubmitGroup);
      }
    }

    /**
     * `resetForm()`: clears `aria-busy`, restores the form's default values,
     * shows the form container and the payment-method group, and hides the
     * other containers and the four dependent groups.
     */
    method ResetForm()
      requires Valid()
      modifies this
      ensures Valid() && !busy && values == defaults
      ensures classes == ResetClasses(old(classes))
    {
      busy := false;
      values := defaults;
      Show(FormContainer);
      HideGroup(LoadingContainer);
      HideGroup(SuccessContainer);
      HideGroup(ErrorContainer);
      Show(FormaGroup);
      HideGroup(NomeGroup);
      HideGroup(CartaoGroup);
      HideGroup(ValorGroup);
      HideGroup(SubmitGroup);
    }
  }
}
