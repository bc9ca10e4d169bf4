/**
 * The quiz answer record shared by the quiz and thank-you screens
 * (`QuizAnswer` in app/quiz/page.tsx, `QuizAnswers` in app/obrigado/page.tsx),
 * and the fixed table of six questions with their option codes and labels.
 */
module Answers {
  import opened Wrappers

  /** A question number; the record key of question n is `question{n}`. */
  type QuestionNumber = n: int | 1 <= n <= 6 witness 1

  /** Six optional string fields; a field is absent until its question is answered. */
  datatype QuizAnswer = QuizAnswer(
    question1: Option<string>,
    question2: Option<string>,
    question3: Option<string>,
    question4: Option<string>,
    question5: Option<string>,
    question6: Option<string>)
  {
    /** The field under key `question{n}`. */
    function Get(n: QuestionNumber): Option<string>
    {
      if n == 1 then question1
      else if n == 2 then question2
      else if n == 3 then question3
      else if n == 4 then question4
      else if n == 5 then question5
      else question6
    }

    /** The spread update `{ ...answers, [question{n}]: value }`. */
    function With(n: QuestionNumber, value: string): (r: QuizAnswer)
      ensures r.Get(n) == Some(value)
      ensures forall k: QuestionNumber :: k != n ==> r.Get(k) == Get(k)
    {
      if n == 1 then this.(question1 := Some(value))
      else if n == 2 then this.(question2 := Some(value))
      else if n == 3 then this.(question3 := Some(value))
      else if n == 4 then this.(question4 := Some(value))
      else if n == 5 then this.(question5 := Some(value))
      else this.(question6 := Some(value))
    }
  }

  /** The record the quiz screen starts from: `{}`. */
  const Empty: QuizAnswer := QuizAnswer(None, None, None, None, None, None)

  /** Two records are equal exactly when they agree on every key. */
  lemma {:induction false} SameFieldsSameRecord(a: QuizAnswer, b: QuizAnswer)
    requires forall k: QuestionNumber :: a.Get(k) == b.Get(k)
    ensures a == b
  {
    assert a.Get(1) == b.Get(1) && a.Get(2) == b.Get(2) && a.Get(3) == b.Get(3);
    assert a.Get(4) == b.Get(4) && a.Get(5) == b.Get(5) && a.Get(6) == b.Get(6);
  }

  /** Answering a question again overwrites the earlier answer and nothing else. */
  lemma {:induction false} ReanswerOverwrites(a: QuizAnswer, n: QuestionNumber, first: string, second: string)
    ensures a.With(n, first).With(n, second) == a.With(n, second)
  {
    var lhs, rhs := a.With(n, first).With(n, second), a.With(n, second);
    forall k: QuestionNumber ensures lhs.Get(k) == rhs.Get(k) {
      if k != n {
        assert lhs.Get(k) == a.With(n, first).Get(k) == a.Get(k);
      }
    }
    SameFieldsSameRecord(lhs, rhs);
  }

  /** One selectable option: the stored code and the label shown on its button. */
  datatype Choice = Choice(value: string, caption: string)

  /** One entry of the `questions` table. */
  datatype Question = Question(id: int, question: string, options: seq<Choice>)

  /** The `questions` table of the quiz screen, in display order. */
  const Questions: seq<Question> := [
    Question(1, "Você conheceu a Smart Ilha por indicação ou anúncio?",
      [Choice("indicacao", "Por indicação"), Choice("anuncio", "Por anúncio")]),
    Question(2, "Está em busca de um presente ou é uma compra pessoal?",
      [Choice("presente", "É um presente"), Choice("pessoal", "Compra pessoal")]),
    Question(3, "Esse é seu primeiro contato com a Smart Ilha?",
      [Choice("sim", "Sim, é meu primeiro contato"), Choice("nao", "Não, já conhecia a loja")]),
    Question(4, "Para qual região seria a entrega do pedido?",
      [Choice("ilha", "Ilha do Governador"), Choice("outra", "Outra região")]),
    Question(5, "Qual modelo de smartwatch você busca?",
      [Choice("feminino", "Modelo feminino"), Choice("masculino", "Modelo masculino")]),
    Question(6, "Você está entrando em contato para saber sobre:",
      [Choice("preco", "Preço de Smartwatch"), Choice("duvida", "Dúvida Técnica"),
       Choice("pedido", "Fazer meu Pedido"), Choice("outro", "Outro Produto")])
  ]

  /** `questions[n - 1]`: every question number indexes the table, and the entry carries that id. */
  function QuestionData(n: QuestionNumber): (q: Question)
    ensures q.id == n
    ensures 2 <= |q.options| <= 4
  {
    Questions[n - 1]
  }

  /** The label of the option whose code is `value` among `options`, if there is one. */
  function LabelIn(options: seq<Choice>, value: string): (r: Option<string>)
    ensures r.Some? <==> exists i :: 0 <= i < |options| && options[i].value == value
    ensures r.Some? ==> exists i :: 0 <= i < |options| && options[i] == Choice(value, r.value)
  {
    if options == [] then None
    else if options[0].value == value then Some(options[0].caption)
    else
      var r := LabelIn(options[1..], value);
      assert forall i :: 0 < i < |options| ==> options[i] == options[1..][i - 1];
      r
  }

  /** The label the quiz shows for code `value` of question n, or None when `value` is not one of its codes. */
  function OptionLabel(n: QuestionNumber, value: string): Option<string>
  {
    LabelIn(QuestionData(n).options, value)
  }

  /** The search over a two-option list, written out. */
  lemma {:induction false} LabelInTwo(c0: Choice, c1: Choice, value: string)
    ensures LabelIn([c0, c1], value)
         == if c0.value == value then Some(c0.caption)
            else if c1.value == value then Some(c1.caption)
            else None
  {
    assert [c0, c1][1..] == [c1];
    assert [c1][1..] == [];
  }

  /** The search over a four-option list, written out. */
  lemma {:induction false} LabelInFour(c0: Choice, c1: Choice, c2: Choice, c3: Choice, value: string)
    ensures LabelIn([c0, c1, c2, c3], value)
         == if c0.value == value then Some(c0.caption)
            else if c1.value == value then Some(c1.caption)
            else if c2.value == value then Some(c2.caption)
            else if c3.value == value then Some(c3.caption)
            else None
  {
    assert [c0, c1, c2, c3][1..] == [c1, c2, c3];
    assert [c1, c2, c3][1..] == [c2, c3];
    LabelInTwo(c2, c3, value);
  }

  /** The codes and labels of question 2, read off the table. */
  lemma {:induction false} QuestionTwoLabels(value: string)
    ensures OptionLabel(2, value)
         == if value == "presente" then Some("É um presente")
            else if value == "pessoal" then Some("Compra pessoal") else None
  {
    LabelInTwo(Questions[1].options[0], Questions[1].options[1], value);
  }

  /** The codes and labels of question 4, read off the table. */
  lemma {:induction false} QuestionFourLabels(value: string)
    ensures OptionLabel(4, value)
         == if value == "ilha" then Some("Ilha do Governador")
            else if value == "outra" then Some("Outra região") else None
  {
    LabelInTwo(Questions[3].options[0], Questions[3].options[1], value);
  }

  /** The codes and labels of question 5, read off the table. */
  lemma {:induction false} QuestionFiveLabels(value: string)
    ensures OptionLabel(5, value)
         == if value == "feminino" then Some("Modelo feminino")
            else if value == "masculino" then Some("Modelo masculino") else None
  {
    LabelInTwo(Questions[4].options[0], Questions[4].options[1], value);
  }

  /** The codes and labels of question 6, read off the table. */
  lemma {:induction false} QuestionSixLabels(value: string)
    ensures OptionLabel(6, value)
         == if value == "preco" then Some("Preço de Smartwatch")
            else if value == "duvida" then Some("Dúvida Técnica")
            else if value == "pedido" then Some("Fazer meu Pedido")
            else if value == "outro" then Some("Outro Produto") else None
  {
    LabelInFour(Questions[5].options[0], Questions[5].options[1], Questions[5].options[2], Questions[5].options[3], value);
  }
}
