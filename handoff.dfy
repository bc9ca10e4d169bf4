/**
 * The hand-off of the thank-you screen (app/obrigado/page.tsx): the WhatsApp
 * message built from the stored answers, the on-screen summary of those
 * answers, and the deep link that carries the message.
 */
module Handoff {
  import opened Wrappers
  import opened Answers

  /** The questions whose answers reach the message and the summary. */
  type HandoffQuestion = n: QuestionNumber | n == 2 || n == 4 || n == 5 || n == 6 witness 2

  /**
   * The greeting sent when the answers do not personalise the message. It is
   * one line; the literal is written in three pieces only so that the
   * verifier can see that no piece holds a line break.
   */
  const BaseMessage: string :=
    "Olá, vim através do Instagram e " + "gostaria de mais informações " + "sobre smartwatches!"

  /** True when `v` is one of the option codes of question n. */
  predicate Recognised(n: QuestionNumber, v: Option<string>)
  {
    v.Some? && OptionLabel(n, v.value).Some?
  }

  /** The four message lookups all succeed. */
  predicate AllRecognised(a: QuizAnswer)
  {
    Recognised(2, a.question2) && Recognised(4, a.question4)
    && Recognised(5, a.question5) && Recognised(6, a.question6)
  }

  /**
   * The lookups `tipoCompra` (question 2), `regiao` (question 4), `modelo`
   * (question 5) and `motivo` (question 6): the label the quiz shows for a
   * recognised code, and the empty string for a missing or unknown one.
   */
  function Lookup(n: HandoffQuestion, v: Option<string>): (phrase: string)
    ensures phrase != "" <==> Recognised(n, v)
    ensures Recognised(n, v) ==> phrase == OptionLabel(n, v.value).value
  {
    if n == 2 then
      if v.Some? then QuestionTwoLabels(v.value); LookupChain(n, v) else LookupChain(n, v)
    else if n == 4 then
      if v.Some? then QuestionFourLabels(v.value); LookupChain(n, v) else LookupChain(n, v)
    else if n == 5 then
      if v.Some? then QuestionFiveLabels(v.value); LookupChain(n, v) else LookupChain(n, v)
    else
      if v.Some? then QuestionSixLabels(v.value); LookupChain(n, v) else LookupChain(n, v)
  }

  /** The if-chains of `generateWhatsAppMessage`, one per question. */
  function LookupChain(n: HandoffQuestion, v: Option<string>): string
  {
    if n == 2 then
      if v == Some("presente") then "É um presente"
      else if v == Some("pessoal") then "Compra pessoal"
      else ""
    else if n == 4 then
      if v == Some("ilha") then "Ilha do Governador"
      else if v == Some("outra") then "Outra região"
      else ""
    else if n == 5 then
      if v == Some("feminino") then "Modelo feminino"
      else if v == Some("masculino") then "Modelo masculino"
      else ""
    else
      if v == Some("preco") then "Preço de Smartwatch"
      else if v == Some("duvida") then "Dúvida Técnica"
      else if v == Some("pedido") then "Fazer meu Pedido"
      else if v == Some("outro") then "Outro Produto"
      else ""
  }

  /** Distinct recognised codes of a question give distinct phrases. */
  lemma {:induction false} LookupInjective(n: HandoffQuestion, v: string, w: string)
    requires Lookup(n, Some(v)) != "" && Lookup(n, Some(v)) == Lookup(n, Some(w))
    ensures v == w
  {
    if n == 6 {
      assert v in {"preco", "duvida", "pedido", "outro"};
    }
  }

  /** The ten phrases of the lookups fit on one line each. */
  lemma PhraseOnOneLine(p: string)
    requires || p == "É um presente" || p == "Compra pessoal"
             || p == "Ilha do Governador" || p == "Outra região"
             || p == "Modelo feminino" || p == "Modelo masculino"
             || p == "Preço de Smartwatch" || p == "Dúvida Técnica" || p == "Fazer meu Pedido" || p == "Outro Produto"
    ensures '\n' !in p
  {
  }

  /** No label the message can carry contains a line break. */
  lemma {:induction false} LabelsOnOneLine(n: HandoffQuestion, v: string)
    requires OptionLabel(n, v).Some?
    ensures '\n' !in OptionLabel(n, v).value
  {
    var p := OptionLabel(n, v).value;
    if n == 2 {
      assert p == "É um presente" || p == "Compra pessoal" by { QuestionTwoLabels(v); }
    } else if n == 4 {
      assert p == "Ilha do Governador" || p == "Outra região" by { QuestionFourLabels(v); }
    } else if n == 5 {
      assert p == "Modelo feminino" || p == "Modelo masculino" by { QuestionFiveLabels(v); }
    } else {
      assert p == "Preço de Smartwatch" || p == "Dúvida Técnica" || p == "Fazer meu Pedido" || p == "Outro Produto"
        by { QuestionSixLabels(v); }
    }
    PhraseOnOneLine(p);
  }

  // Lines and their separator.

  /** Lines joined with a line break between consecutive ones. */
  function JoinLines(lines: seq<string>): (s: string)
    requires |lines| >= 1
    ensures |lines[0]| <= |s| && s[..|lines[0]|] == lines[0]
  {
    if |lines| == 1 then lines[0]
    else
      var s := lines[0] + "\n" + JoinLines(lines[1..]);
      assert s[..|lines[0]|] == lines[0];
      s
  }

  /** A string cut at every line break. */
  function SplitLines(s: string): (lines: seq<string>)
    ensures |lines| >= 1
  {
    if s == [] then [""]
    else
      var rest := SplitLines(s[1..]);
      if s[0] == '\n' then [""] + rest else [[s[0]] + rest[0]] + rest[1..]
  }

  /** Text without a line break joins the first line of what follows it. */
  lemma {:induction false} SplitAfterPlainText(a: string, b: string)
    requires '\n' !in a
    ensures SplitLines(a + b) == [a + SplitLines(b)[0]] + SplitLines(b)[1..]
  {
    if a != [] {
      assert (a + b)[0] == a[0] != '\n';
      assert '\n' !in a[1..];
      assert (a + b)[1..] == a[1..] + b;
      SplitAfterPlainText(a[1..], b);
      var rest := SplitLines(a[1..] + b);
      assert rest[0] == a[1..] + SplitLines(b)[0];
      assert rest[1..] == SplitLines(b)[1..];
      assert SplitLines(a + b) == [[a[0]] + rest[0]] + rest[1..];
      assert [a[0]] + (a[1..] + SplitLines(b)[0]) == a + SplitLines(b)[0];
    } else {
      assert a + b == b && a + SplitLines(b)[0] == SplitLines(b)[0];
      assert SplitLines(b) == [SplitLines(b)[0]] + SplitLines(b)[1..];
    }
  }

  /** Splitting undoes joining when no line holds a line break. */
  lemma {:induction false} SplitJoin(lines: seq<string>)
    requires |lines| >= 1
    requires forall i :: 0 <= i < |lines| ==> '\n' !in lines[i]
    ensures SplitLines(JoinLines(lines)) == lines
  {
    if |lines| == 1 {
      SplitAfterPlainText(lines[0], "");
      assert lines[0] + "" == lines[0];
    } else {
      var rest := JoinLines(lines[1..]);
      SplitJoin(lines[1..]);
      assert lines[0] + "\n" + rest == lines[0] + ("\n" + rest);
      SplitAfterPlainText(lines[0], "\n" + rest);
      assert ("\n" + rest)[1..] == rest;
      assert SplitLines("\n" + rest) == [""] + lines[1..];
      assert lines[0] + "" == lines[0];
    }
  }

  // The message.

  /** The lines of the personalised message, in the order the template has them. */
  function PersonalisedLines(tipo: string, regiao: string, modelo: string, motivo: string): (lines: seq<string>)
    ensures |lines| == 9 && lines[0] == BaseMessage
  {
    [ BaseMessage,
      "",
      "📋 *Informações do atendimento:*",
      "🎁 Tipo: " + tipo,
      "📍 Região: " + regiao,
      "⌚ Modelo: " + modelo,
      "❓ Motivo: " + motivo,
      "",
      "Aguardo retorno! 😊" ]
  }

  /**
   * `generateWhatsAppMessage()`: the personalised template when all four
   * lookups succeed, the base greeting exactly otherwise (also when no
   * answers were loaded). Either way the message opens with the greeting.
   */
  function GenerateWhatsAppMessage(quizAnswers: Option<QuizAnswer>): (message: string)
    ensures message == BaseMessage <==> !(quizAnswers.Some? && AllRecognised(quizAnswers.value))
    ensures |BaseMessage| <= |message| && message[..|BaseMessage|] == BaseMessage
  {
    if quizAnswers.None? then BaseMessage
    else
      var a := quizAnswers.value;
      var tipoCompra := Lookup(2, a.question2);
      var regiao := Lookup(4, a.question4);
      var modelo := Lookup(5, a.question5);
      var motivo := Lookup(6, a.question6);
      if tipoCompra != "" && regiao != "" && modelo != "" && motivo != "" then
        var lines := PersonalisedLines(tipoCompra, regiao, modelo, motivo);
        var m := JoinLines(lines);
        assert m == BaseMessage + "\n" + JoinLines(lines[1..]);
        m
      else BaseMessage
  }

  /**
   * A personalised message reads, line by line: the greeting, a blank line,
   * the heading, the Tipo, Região, Modelo and Motivo lines carrying the quiz
   * labels of answers 2, 4, 5 and 6, a blank line and the closing line.
   */
  lemma MessageLines(a: QuizAnswer)
    requires AllRecognised(a)
    ensures SplitLines(GenerateWhatsAppMessage(Some(a))) == PersonalisedLines(
      OptionLabel(2, a.question2.value).value, OptionLabel(4, a.question4.value).value,
      OptionLabel(5, a.question5.value).value, OptionLabel(6, a.question6.value).value)
  {
    var tipo, regiao, modelo, motivo := Lookup(2, a.question2), Lookup(4, a.question4),
                                        Lookup(5, a.question5), Lookup(6, a.question6);
    LabelsOnOneLine(2, a.question2.value);
    LabelsOnOneLine(4, a.question4.value);
    LabelsOnOneLine(5, a.question5.value);
    LabelsOnOneLine(6, a.question6.value);
    PersonalisedSplits(tipo, regiao, modelo, motivo);
  }

  /** The personalised template splits back into its nine lines when no phrase holds a line break. */
  lemma {:induction false} PersonalisedSplits(tipo: string, regiao: string, modelo: string, motivo: string)
    requires '\n' !in tipo && '\n' !in regiao && '\n' !in modelo && '\n' !in motivo
    ensures SplitLines(JoinLines(PersonalisedLines(tipo, regiao, modelo, motivo)))
         == PersonalisedLines(tipo, regiao, modelo, motivo)
  {
    var lines := PersonalisedLines(tipo, regiao, modelo, motivo);
    GreetingOnOneLine();
    TemplateTextOnOneLine();
    forall i | 0 <= i < |lines| ensures '\n' !in lines[i] {
    }
    SplitJoin(lines);
  }

  lemma GreetingOnOneLine()
    ensures '\n' !in BaseMessage
  {
  }

  /** The fixed text of the template's other lines holds no line break. */
  lemma TemplateTextOnOneLine()
    ensures '\n' !in "📋 *Informações do atendimento:*" && '\n' !in "Aguardo retorno! 😊"
    ensures '\n' !in "🎁 Tipo: " && '\n' !in "📍 Região: " && '\n' !in "⌚ Modelo: " && '\n' !in "❓ Motivo: "
  {
  }

  /** Answers 1 and 3 never reach the message. */
  lemma IgnoresQuestionsOneAndThree(a: QuizAnswer, q1: Option<string>, q3: Option<string>)
    ensures GenerateWhatsAppMessage(Some(a.(question1 := q1, question3 := q3)))
         == GenerateWhatsAppMessage(Some(a))
  {
  }

  // The summary box.

  /** One line of the "Suas informações" box: its emoji and its text. */
  datatype SummaryLine = SummaryLine(icon: string, text: string)

  /** The emoji of question n's summary line. */
  function Icon(n: HandoffQuestion): string
  {
    if n == 2 then "🎁" else if n == 4 then "📍" else if n == 5 then "⌚" else "❓"
  }

  /** JavaScript truthiness of a field: present and not the empty string. */
  predicate Shown(v: Option<string>)
  {
    v.Some? && v.value != ""
  }

  /** The label of the last option of question n. */
  function LastLabel(n: QuestionNumber): string
  {
    var options := QuestionData(n).options;
    options[|options| - 1].caption
  }

  /**
   * The text of a summary line: the quiz label of a recognised code; any other
   * value falls through the conditional chain to the last option's label.
   */
  function SummaryText(n: HandoffQuestion, v: string): (text: string)
    ensures OptionLabel(n, v).Some? ==> text == OptionLabel(n, v).value
    ensures OptionLabel(n, v).None? ==> text == LastLabel(n)
  {
    if n == 2 then
      if v == "presente" then "É um presente" else "Compra pessoal"
    else if n == 4 then
      if v == "ilha" then "Ilha do Governador" else "Outra região"
    else if n == 5 then
      if v == "feminino" then "Modelo feminino" else "Modelo masculino"
    else
      if v == "preco" then "Preço de Smartwatch"
      else if v == "duvida" then "Dúvida Técnica"
      else if v == "pedido" then "Fazer meu Pedido"
      else "Outro Produto"
  }

  /** The summary line of question n, present only when its field is truthy. */
  function Entry(n: HandoffQuestion, v: Option<string>): seq<SummaryLine>
  {
    if Shown(v) then [SummaryLine(Icon(n), SummaryText(n, v.value))] else []
  }

  /** The summary box: absent without loaded answers, else one line per truthy field among 2, 4, 5 and 6. */
  function Summary(quizAnswers: Option<QuizAnswer>): (lines: seq<SummaryLine>)
    ensures quizAnswers.None? ==> lines == []
    ensures |lines| <= 4
  {
    if quizAnswers.None? then []
    else
      var a := quizAnswers.value;
      Entry(2, a.question2) + Entry(4, a.question4) + Entry(5, a.question5) + Entry(6, a.question6)
  }

  /** Where question n's line would sit: after the lines of the questions shown above it. */
  function Position(a: QuizAnswer, n: HandoffQuestion): nat
  {
    var e2, e4, e5 := Entry(2, a.question2), Entry(4, a.question4), Entry(5, a.question5);
    if n == 2 then 0 else if n == 4 then |e2| else if n == 5 then |e2| + |e4| else |e2| + |e4| + |e5|
  }

  /** The line at index i carries question n's icon exactly when n is shown and sits at its position. */
  lemma {:induction false} IconAt(a: QuizAnswer, n: HandoffQuestion, i: int)
    requires 0 <= i < |Summary(Some(a))|
    ensures Summary(Some(a))[i].icon == Icon(n) <==> Shown(a.Get(n)) && i == Position(a, n)
    ensures Summary(Some(a))[i].icon == Icon(n) ==> Summary(Some(a))[i] == SummaryLine(Icon(n), SummaryText(n, a.Get(n).value))
  {
    var lines := Summary(Some(a));
    var e2, e4, e5, e6 := Entry(2, a.question2), Entry(4, a.question4), Entry(5, a.question5), Entry(6, a.question6);
    assert lines == e2 + e4 + e5 + e6;
  }

  /**
   * Question n has a line in the summary exactly when its field is truthy, at
   * most one, and that line shows the summary text of the stored value.
   */
  lemma {:induction false} SummaryLineFor(a: QuizAnswer, n: HandoffQuestion)
    ensures (exists i :: 0 <= i < |Summary(Some(a))| && Summary(Some(a))[i].icon == Icon(n))
        <==> Shown(a.Get(n))
    ensures forall i :: (0 <= i < |Summary(Some(a))| && Summary(Some(a))[i].icon == Icon(n)
                         ==> Summary(Some(a))[i] == SummaryLine(Icon(n), SummaryText(n, a.Get(n).value)))
    ensures forall i, j :: (0 <= i < |Summary(Some(a))| && 0 <= j < |Summary(Some(a))|
                            && Summary(Some(a))[i].icon == Icon(n) && Summary(Some(a))[j].icon == Icon(n)
                            ==> i == j)
  {
    var lines := Summary(Some(a));
    forall i | 0 <= i < |lines|
      ensures lines[i].icon == Icon(n) <==> Shown(a.Get(n)) && i == Position(a, n)
      ensures lines[i].icon == Icon(n) ==> lines[i] == SummaryLine(Icon(n), SummaryText(n, a.Get(n).value))
    {
      IconAt(a, n, i);
    }
    if Shown(a.Get(n)) {
      var e2, e4, e5, e6 := Entry(2, a.question2), Entry(4, a.question4), Entry(5, a.question5), Entry(6, a.question6);
      assert lines == e2 + e4 + e5 + e6;
      assert Position(a, n) < |lines|;
      assert lines[Position(a, n)].icon == Icon(n);
    }
  }

  /** The question whose line sits at index i of the summary: its field is truthy and the line is its line. */
  lemma {:induction false} LineOwner(a: QuizAnswer, i: int) returns (n: HandoffQuestion)
    requires 0 <= i < |Summary(Some(a))|
    ensures Shown(a.Get(n)) && Summary(Some(a))[i] == SummaryLine(Icon(n), SummaryText(n, a.Get(n).value))
  {
    var lines := Summary(Some(a));
    var e2, e4, e5, e6 := Entry(2, a.question2), Entry(4, a.question4), Entry(5, a.question5), Entry(6, a.question6);
    assert lines == e2 + e4 + e5 + e6;
    if i < |e2| {
      n := 2;
    } else if i < |e2| + |e4| {
      n := 4;
    } else if i < |e2| + |e4| + |e5| {
      n := 5;
    } else {
      n := 6;
    }
  }

  /** `line` is the summary line of some truthy answer among 2, 4, 5 and 6. */
  predicate IsShownAnswerLine(a: QuizAnswer, line: SummaryLine)
  {
    exists n: HandoffQuestion :: Shown(a.Get(n)) && line == SummaryLine(Icon(n), SummaryText(n, a.Get(n).value))
  }

  /** Every line of the summary is the line of a truthy answer among 2, 4, 5 and 6: the box shows nothing else. */
  lemma {:induction false} EveryLineIsAShownAnswer(a: QuizAnswer)
    ensures forall i :: 0 <= i < |Summary(Some(a))| ==> IsShownAnswerLine(a, Summary(Some(a))[i])
  {
    var lines := Summary(Some(a));
    forall i | 0 <= i < |lines|
      ensures IsShownAnswerLine(a, lines[i])
    {
      var n := LineOwner(a, i);
      assert Shown(a.Get(n)) && lines[i] == SummaryLine(Icon(n), SummaryText(n, a.Get(n).value));
    }
  }

  /** The summary lists the shown answers in the order 2, 4, 5, 6. */
  lemma {:induction false} SummaryOrder(a: QuizAnswer, n: HandoffQuestion, m: HandoffQuestion)
    requires n < m
    ensures forall i, j :: (0 <= i < |Summary(Some(a))| && 0 <= j < |Summary(Some(a))|
                            && Summary(Some(a))[i].icon == Icon(n) && Summary(Some(a))[j].icon == Icon(m)
                            ==> i < j)
  {
    var lines := Summary(Some(a));
    forall i, j | 0 <= i < |lines| && 0 <= j < |lines| && lines[i].icon == Icon(n) && lines[j].icon == Icon(m)
      ensures i < j
    {
      IconAt(a, n, i);
      IconAt(a, m, j);
    }
  }

  /** With all four codes recognised, the summary shows the same four phrases as the message, in the same order. */
  lemma SummaryAgreesWithMessage(a: QuizAnswer)
    requires AllRecognised(a)
    ensures Summary(Some(a)) == [
      SummaryLine("🎁", Lookup(2, a.question2)),
      SummaryLine("📍", Lookup(4, a.question4)),
      SummaryLine("⌚", Lookup(5, a.question5)),
      SummaryLine("❓", Lookup(6, a.question6)) ]
  {
    assert Entry(2, a.question2) == [SummaryLine("🎁", Lookup(2, a.question2))];
    assert Entry(4, a.question4) == [SummaryLine("📍", Lookup(4, a.question4))];
    assert Entry(5, a.question5) == [SummaryLine("⌚", Lookup(5, a.question5))];
    assert Entry(6, a.question6) == [SummaryLine("❓", Lookup(6, a.question6))];
  }

  /**
   * A truthy value outside a question's codes still gets a summary line, with
   * the last option's label, while the message falls back to the greeting.
   */
  lemma SummaryDiffersOnUnrecognised(a: QuizAnswer, n: HandoffQuestion)
    requires Shown(a.Get(n)) && !Recognised(n, a.Get(n))
    ensures GenerateWhatsAppMessage(Some(a)) == BaseMessage
    ensures SummaryLine(Icon(n), LastLabel(n)) in Summary(Some(a))
  {
    SummaryLineFor(a, n);
    var i :| 0 <= i < |Summary(Some(a))| && Summary(Some(a))[i].icon == Icon(n);
    assert Summary(Some(a))[i] == SummaryLine(Icon(n), LastLabel(n));
  }

  /** For instance, a stored "xyz" for question 2 shows "Compra pessoal" and the message is the greeting. */
  lemma SummaryDiffersExample()
    ensures var a := QuizAnswer(None, Some("xyz"), None, Some("ilha"), Some("feminino"), Some("pedido"));
      && GenerateWhatsAppMessage(Some(a)) == BaseMessage
      && Summary(Some(a))[0] == SummaryLine("🎁", "Compra pessoal")
  {
    var a := QuizAnswer(None, Some("xyz"), None, Some("ilha"), Some("feminino"), Some("pedido"));
    SummaryDiffersOnUnrecognised(a, 2);
  }

  // The deep link.

  const WhatsAppPrefix: string := "https://wa.me/5521980202797?text="

  /** The URL `openWhatsApp` opens: the fixed prefix, then the percent-encoded message. */
  function WhatsAppUrl(message: string, encodeURIComponent: string -> string): (url: string)
    ensures |WhatsAppPrefix| <= |url| && url[..|WhatsAppPrefix|] == WhatsAppPrefix
    ensures url[|WhatsAppPrefix|..] == encodeURIComponent(message)
  {
    WhatsAppPrefix + encodeURIComponent(message)
  }
}
